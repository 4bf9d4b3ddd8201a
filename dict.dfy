/**
 * Ordered dictionaries: a sequence of (key, value) entries in insertion order,
 * which is what a PHP array is.  `Put` is PHP's `$a[$k] = $v` (an existing key
 * keeps its position), `Union` is PHP's `$a + $b` (the left operand wins).
 */
module Dict {
  import opened Wrappers

  predicate HasKey<K(==,!new), V>(d: seq<(K, V)>, k: K) {
    exists i :: 0 <= i < |d| && d[i].0 == k
  }

  /** No key occurs twice: true of every PHP array. */
  predicate UniqueKeys<K(==,!new), V>(d: seq<(K, V)>) {
    forall i, j :: 0 <= i < j < |d| ==> d[i].0 != d[j].0
  }

  function Keys<K, V>(d: seq<(K, V)>): (ks: seq<K>)
    ensures |ks| == |d|
    ensures forall i :: 0 <= i < |d| ==> ks[i] == d[i].0
  {
    if d == [] then [] else [d[0].0] + Keys(d[1..])
  }

  function Values<K, V>(d: seq<(K, V)>): (vs: seq<V>)
    ensures |vs| == |d|
    ensures forall i :: 0 <= i < |d| ==> vs[i] == d[i].1
  {
    if d == [] then [] else [d[0].1] + Values(d[1..])
  }

  /** The value of the first entry with key `k`. */
  function Get<K(==,!new), V>(d: seq<(K, V)>, k: K): (r: Option<V>)
    ensures r.Some? <==> HasKey(d, k)
    ensures r.Some? ==> exists i :: 0 <= i < |d| && d[i] == (k, r.value)
  {
    if d == [] then None
    else if d[0].0 == k then Some(d[0].1)
    else
      var r := Get(d[1..], k);
      assert HasKey(d[1..], k) ==> HasKey(d, k);
      assert HasKey(d, k) ==> HasKey(d[1..], k) by {
        if HasKey(d, k) {
          var i :| 0 <= i < |d| && d[i].0 == k;
          assert d[1..][i - 1].0 == k;
        }
      }
      assert r.Some? ==> exists i :: 0 <= i < |d| && d[i] == (k, r.value) by {
        if r.Some? {
          var i :| 0 <= i < |d[1..]| && d[1..][i] == (k, r.value);
          assert d[i + 1] == (k, r.value);
        }
      }
      r
  }

  lemma HasKeyCons<K(!new), V>(d: seq<(K, V)>, k: K)
    requires d != []
    ensures HasKey(d, k) <==> d[0].0 == k || HasKey(d[1..], k)
  {
    if HasKey(d, k) && d[0].0 != k {
      var i :| 0 <= i < |d| && d[i].0 == k;
      assert d[1..][i - 1].0 == k;
    }
    if HasKey(d[1..], k) {
      var i :| 0 <= i < |d[1..]| && d[1..][i].0 == k;
      assert d[i + 1].0 == k;
    }
  }

  /** PHP's `$d[$k] = $v`: replace in place, or append at the end. */
  function Put<K(==,!new), V>(d: seq<(K, V)>, k: K, v: V): (r: seq<(K, V)>)
    ensures HasKey(d, k) ==> |r| == |d| && Keys(r) == Keys(d)
    ensures !HasKey(d, k) ==> r == d + [(k, v)]
  {
    if d == [] then [(k, v)]
    else if d[0].0 == k then
      var r := [(k, v)] + d[1..];
      assert forall i :: 0 <= i < |d| ==> Keys(r)[i] == Keys(d)[i];
      r
    else
      var rest := Put(d[1..], k, v);
      var r := [d[0]] + rest;
      HasKeyCons(d, k);
      assert HasKey(d, k) ==> forall i :: 0 <= i < |d| ==> Keys(r)[i] == Keys(d)[i] by {
        if HasKey(d, k) {
          forall i | 0 <= i < |d| ensures Keys(r)[i] == Keys(d)[i] {
            if i > 0 { assert Keys(rest)[i - 1] == Keys(d[1..])[i - 1]; }
          }
        }
      }
      assert !HasKey(d, k) ==> d + [(k, v)] == [d[0]] + (d[1..] + [(k, v)]);
      r
  }

  /** The entry at `i` is what a lookup of its key finds, when no earlier entry has that key. */
  lemma {:induction false} GetAt<K(!new), V>(d: seq<(K, V)>, i: nat)
    requires i < |d| && forall j :: 0 <= j < i ==> d[j].0 != d[i].0
    ensures Get(d, d[i].0) == Some(d[i].1)
  {
    if i > 0 {
      assert d[1..][i - 1] == d[i];
      GetAt(d[1..], i - 1);
    }
  }

  /** After `$d[$k] = $v`, `$d[$k]` is `$v` and every other key reads as before. */
  lemma {:induction false} PutGet<K(!new), V>(d: seq<(K, V)>, k: K, v: V, k': K)
    ensures Get(Put(d, k, v), k') == if k' == k then Some(v) else Get(d, k')
  {
    if d != [] && d[0].0 != k {
      assert Put(d, k, v)[1..] == Put(d[1..], k, v);
      PutGet(d[1..], k, v, k');
    } else if d != [] {
      assert Put(d, k, v)[1..] == d[1..];
    }
  }

  lemma PutUnique<K(!new), V>(d: seq<(K, V)>, k: K, v: V)
    requires UniqueKeys(d)
    ensures UniqueKeys(Put(d, k, v))
  {
    var r := Put(d, k, v);
    if HasKey(d, k) {
      forall i | 0 <= i < |r| ensures r[i].0 == d[i].0 {
        assert Keys(r)[i] == Keys(d)[i];
      }
    }
  }

  /** Appending an entry whose key is new changes only that key's lookup. */
  lemma {:induction false} GetAppend<K(!new), V>(d: seq<(K, V)>, k: K, v: V, k': K)
    ensures Get(d + [(k, v)], k') == if HasKey(d, k') then Get(d, k') else if k' == k then Some(v) else None
  {
    if d != [] {
      assert (d + [(k, v)])[1..] == d[1..] + [(k, v)];
      GetAppend(d[1..], k, v, k');
      assert HasKey(d[1..], k') ==> HasKey(d, k') by {
        if HasKey(d[1..], k') {
          var i :| 0 <= i < |d[1..]| && d[1..][i].0 == k';
          assert d[i + 1].0 == k';
        }
      }
    }
  }

  /** PHP's `$a + $b`: the entries of `b` whose keys `a` lacks, appended in order. */
  function Union<K(==,!new), V>(a: seq<(K, V)>, b: seq<(K, V)>): (r: seq<(K, V)>)
    ensures |a| <= |r| && r[..|a|] == a
    ensures forall k :: Get(r, k) == if HasKey(a, k) then Get(a, k) else Get(b, k)
    decreases |b|
  {
    if b == [] then a
    else if HasKey(a, b[0].0) then
      var r := Union(a, b[1..]);
      forall k ensures Get(r, k) == if HasKey(a, k) then Get(a, k) else Get(b, k) {
        assert Get(b, k) == if b[0].0 == k then Some(b[0].1) else Get(b[1..], k);
      }
      r
    else
      var a' := a + [b[0]];
      var r := Union(a', b[1..]);
      assert r[..|a|] == r[..|a'|][..|a|];
      forall k ensures Get(r, k) == if HasKey(a, k) then Get(a, k) else Get(b, k) {
        GetAppend(a, b[0].0, b[0].1, k);
        assert Get(b, k) == if b[0].0 == k then Some(b[0].1) else Get(b[1..], k);
        assert HasKey(a', k) <==> HasKey(a, k) || k == b[0].0 by {
          if HasKey(a', k) {
            var i :| 0 <= i < |a'| && a'[i].0 == k;
            if i < |a| { assert a[i].0 == k; }
          }
          if k == b[0].0 { assert a'[|a|].0 == k; }
          if HasKey(a, k) {
            var i :| 0 <= i < |a| && a[i].0 == k;
            assert a'[i].0 == k;
          }
        }
      }
      r
  }

  /** The dictionary with every value replaced by `f(key, value)`, keys and order kept. */
  function MapValues<K, V, W>(d: seq<(K, V)>, f: (K, V) -> W): (r: seq<(K, W)>)
    ensures |r| == |d|
    ensures forall i :: 0 <= i < |d| ==> r[i] == (d[i].0, f(d[i].0, d[i].1))
  {
    if d == [] then [] else [(d[0].0, f(d[0].0, d[0].1))] + MapValues(d[1..], f)
  }

  /** Mapping a prefix one entry longer appends that entry, mapped. */
  lemma MapValuesPrefix<K, V, W>(d: seq<(K, V)>, f: (K, V) -> W, n: nat)
    requires 0 < n <= |d|
    ensures MapValues(d[..n], f) == MapValues(d[..n - 1], f) + [(d[n - 1].0, f(d[n - 1].0, d[n - 1].1))]
  {
    var r := MapValues(d[..n], f);
    var p := MapValues(d[..n - 1], f);
    forall i | 0 <= i < n - 1 ensures r[i] == p[i] {
      assert d[..n][i] == d[..n - 1][i];
    }
  }

  /** A prefix one entry longer is the shorter prefix and that entry. */
  lemma TakeLast<T>(s: seq<T>, n: nat)
    requires 0 < n <= |s|
    ensures s[..n] == s[..n - 1] + [s[n - 1]]
  {
  }

  /** With unique keys, an entry's key is not among those before it. */
  lemma PrefixMissing<K(!new), V>(d: seq<(K, V)>, n: nat)
    requires 0 < n <= |d| && UniqueKeys(d)
    ensures !HasKey(d[..n - 1], d[n - 1].0)
  {
    var p := d[..n - 1];
    forall i | 0 <= i < |p| ensures p[i].0 != d[n - 1].0 {
      assert p[i] == d[i];
    }
  }

  /** Each of the first `n` keys differs from the keys before it: `UniqueKeys` one entry at a time. */
  predicate UniquePrefix<K(==,!new), V>(d: seq<(K, V)>, n: nat)
    requires n <= |d|
  {
    n == 0 || (!HasKey(d[..n - 1], d[n - 1].0) && UniquePrefix(d, n - 1))
  }

  lemma {:induction false} UniqueKeysPrefix<K(!new), V>(d: seq<(K, V)>, n: nat)
    requires n <= |d| && UniqueKeys(d)
    ensures UniquePrefix(d, n)
  {
    if n > 0 {
      PrefixMissing(d, n);
      UniqueKeysPrefix(d, n - 1);
    }
  }

  lemma {:induction false} GetMapValues<K(!new), V, W>(d: seq<(K, V)>, f: (K, V) -> W, k: K)
    ensures Get(MapValues(d, f), k) == if HasKey(d, k) then Some(f(k, Get(d, k).value)) else None
  {
    if d != [] {
      GetMapValues(d[1..], f, k);
      assert MapValues(d, f)[1..] == MapValues(d[1..], f);
      HasKeyCons(d, k);
    }
  }

  /** A key is in a concatenation when it is in either part. */
  lemma HasKeyConcat<K(!new), V>(a: seq<(K, V)>, b: seq<(K, V)>, k: K)
    ensures HasKey(a + b, k) <==> HasKey(a, k) || HasKey(b, k)
  {
    if HasKey(a + b, k) {
      var i :| 0 <= i < |a + b| && (a + b)[i].0 == k;
      if i >= |a| { assert b[i - |a|].0 == k; }
    }
    if HasKey(b, k) {
      var i :| 0 <= i < |b| && b[i].0 == k;
      assert (a + b)[i + |a|].0 == k;
    }
    if HasKey(a, k) {
      var i :| 0 <= i < |a| && a[i].0 == k;
      assert (a + b)[i].0 == k;
    }
  }

  /** Reading a concatenation: the first part decides when it has the key. */
  lemma {:induction false} GetConcat<K(!new), V>(p: seq<(K, V)>, q: seq<(K, V)>, k: K)
    ensures Get(p + q, k) == if HasKey(p, k) then Get(p, k) else Get(q, k)
  {
    if p != [] {
      assert (p + q)[1..] == p[1..] + q;
      HasKeyCons(p, k);
      GetConcat(p[1..], q, k);
    } else {
      assert p + q == q;
    }
  }

  /** PHP's `unset($d[$k])`: the entry named `k` removed, the others kept in order. */
  function Remove<K(==,!new), V>(d: seq<(K, V)>, k: K): (r: seq<(K, V)>)
    ensures !HasKey(d, k) ==> r == d
    ensures !HasKey(r, k)
    ensures forall k' :: k' != k ==> Get(r, k') == Get(d, k')
  {
    if d == [] then []
    else
      var rest := Remove(d[1..], k);
      HasKeyCons(d, k);
      if d[0].0 == k then
        forall k' | k' != k ensures Get(rest, k') == Get(d, k') { }
        rest
      else
        var r := [d[0]] + rest;
        assert r[1..] == rest;
        HasKeyCons(r, k);
        forall k' | k' != k ensures Get(r, k') == Get(d, k') { }
        r
  }

  /** Writing the last key again replaces its value in place. */
  lemma {:induction false} PutLast<K(!new), V>(d: seq<(K, V)>, k: K, v: V, v': V)
    requires !HasKey(d, k)
    ensures Put(d + [(k, v)], k, v') == d + [(k, v')]
  {
    if d == [] {
      assert [(k, v)][1..] == [];
    } else {
      var e := d + [(k, v)];
      HasKeyCons(d, k);
      assert e[0] == d[0] && e[1..] == d[1..] + [(k, v)];
      PutLast(d[1..], k, v, v');
      ConsAppend(d, (k, v'));
    }
  }

  lemma ConsAppend<T>(d: seq<T>, x: T)
    requires d != []
    ensures d + [x] == [d[0]] + (d[1..] + [x])
  {
  }

  /** Appending a new key keeps the keys unique. */
  lemma AppendUnique<K(!new), V>(d: seq<(K, V)>, k: K, v: V)
    requires UniqueKeys(d) && !HasKey(d, k)
    ensures UniqueKeys(d + [(k, v)])
  {
    var e := d + [(k, v)];
    forall i, j | 0 <= i < j < |e| ensures e[i].0 != e[j].0 {
      if j == |d| {
        assert e[i] == d[i];
      }
    }
  }

  /** `$a + $b` has unique keys when `a` has. */
  lemma {:induction false} UnionUnique<K(!new), V>(a: seq<(K, V)>, b: seq<(K, V)>)
    requires UniqueKeys(a)
    ensures UniqueKeys(Union(a, b))
    decreases |b|
  {
    if b != [] {
      if HasKey(a, b[0].0) {
        UnionUnique(a, b[1..]);
      } else {
        AppendUnique(a, b[0].0, b[0].1);
        UnionUnique(a + [b[0]], b[1..]);
      }
    }
  }

  /** `$a + $b` for arrays with no key in common is their concatenation. */
  lemma {:induction false} UnionDisjoint<K(!new), V>(a: seq<(K, V)>, b: seq<(K, V)>)
    requires forall i :: 0 <= i < |b| ==> !HasKey(a, b[i].0)
    requires UniqueKeys(b)
    ensures Union(a, b) == a + b
    decreases |b|
  {
    if b != [] {
      var a' := a + [b[0]];
      assert Union(a, b) == Union(a', b[1..]) by { UnionStep(a, b); }
      assert Union(a', b[1..]) == a' + b[1..] by {
        DisjointStep(a, b);
        UniqueTail(b);
        UnionDisjoint(a', b[1..]);
      }
      AppendHead(a, b);
    }
  }

  lemma AppendHead<T>(a: seq<T>, b: seq<T>)
    requires b != []
    ensures (a + [b[0]]) + b[1..] == a + b
  {
    assert b == [b[0]] + b[1..];
  }

  /** A key `a` lacks is appended, and the union goes on with the rest. */
  lemma UnionStep<K(!new), V>(a: seq<(K, V)>, b: seq<(K, V)>)
    requires b != [] && !HasKey(a, b[0].0)
    ensures Union(a, b) == Union(a + [b[0]], b[1..])
  {
  }

  /** Keys of `b` missing from `a`, with `b`'s keys unique, are missing from `a` plus `b`'s first entry. */
  lemma DisjointStep<K(!new), V>(a: seq<(K, V)>, b: seq<(K, V)>)
    requires b != [] && UniqueKeys(b)
    requires forall i :: 0 <= i < |b| ==> !HasKey(a, b[i].0)
    ensures forall i :: 0 <= i < |b[1..]| ==> !HasKey(a + [b[0]], b[1..][i].0)
  {
    forall i | 0 <= i < |b[1..]|
      ensures !HasKey(a + [b[0]], b[1..][i].0)
    {
      assert b[1..][i] == b[i + 1];
      HasKeyConcat(a, [b[0]], b[i + 1].0);
    }
  }

  lemma UniqueTail<K(!new), V>(b: seq<(K, V)>)
    requires b != [] && UniqueKeys(b)
    ensures UniqueKeys(b[1..])
  {
    forall i, j | 0 <= i < j < |b[1..]| ensures b[1..][i].0 != b[1..][j].0 {
      assert b[1..][i] == b[i + 1] && b[1..][j] == b[j + 1];
    }
  }

  /** Writing the value a key already reads as changes nothing. */
  lemma {:induction false} PutSame<K(!new), V>(d: seq<(K, V)>, k: K, v: V)
    requires Get(d, k) == Some(v)
    ensures Put(d, k, v) == d
  {
    if d[0].0 != k {
      PutSame(d[1..], k, v);
      assert Put(d, k, v) == [d[0]] + Put(d[1..], k, v);
    }
  }
}

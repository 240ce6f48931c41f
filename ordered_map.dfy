/**
 * A PHP array used as a dictionary: an insertion-ordered list of key/value pairs in
 * which assigning an existing key replaces its value in place and a new key goes last.
 */
module OrderedMap {
  import opened Wrappers

  function Keys<K(==, !new), V>(a: seq<(K, V)>): (ks: seq<K>)
    ensures |ks| == |a|
    ensures forall i :: 0 <= i < |a| ==> ks[i] == a[i].0
  {
    if a == [] then [] else [a[0].0] + Keys(a[1..])
  }

  function Values<K(==, !new), V>(a: seq<(K, V)>): (vs: seq<V>)
    ensures |vs| == |a|
    ensures forall i :: 0 <= i < |a| ==> vs[i] == a[i].1
  {
    if a == [] then [] else [a[0].1] + Values(a[1..])
  }

  predicate HasKey<K(==, !new), V>(a: seq<(K, V)>, k: K)
  {
    k in Keys(a)
  }

  /** No key occurs twice, as in every PHP array. */
  predicate Distinct<K(==, !new), V>(a: seq<(K, V)>)
  {
    forall i, j :: 0 <= i < j < |a| ==> a[i].0 != a[j].0
  }

  /** `$a[$k] ?? null`. */
  function Get<K(==, !new), V>(a: seq<(K, V)>, k: K): (r: Option<V>)
    ensures r.Some? <==> k in Keys(a)
    ensures r.Some? ==> (k, r.value) in a
  {
    if a == [] then None else if a[0].0 == k then Some(a[0].1) else Get(a[1..], k)
  }

  /** `$a[$k] = $v`. */
  function Put<K(==, !new), V>(a: seq<(K, V)>, k: K, v: V): (r: seq<(K, V)>)
    ensures Get(r, k) == Some(v)
    ensures forall k' :: k' != k ==> Get(r, k') == Get(a, k')
    ensures k in Keys(a) ==> Keys(r) == Keys(a)
    ensures k !in Keys(a) ==> r == a + [(k, v)]
  {
    if a == [] then [(k, v)]
    else if a[0].0 == k then
      assert Keys([(k, v)] + a[1..]) == [k] + Keys(a[1..]);
      [(k, v)] + a[1..]
    else
      var rest := Put(a[1..], k, v);
      assert [a[0]] + a[1..] == a;
      PutBehind(a[0], a[1..], k, v, rest);
      [a[0]] + rest
  }

  /** A write behind a first entry with another key keeps that entry in front. */
  lemma PutBehind<K(!new), V>(x: (K, V), t: seq<(K, V)>, k: K, v: V, rest: seq<(K, V)>)
    requires x.0 != k
    requires Get(rest, k) == Some(v)
    requires forall k' :: k' != k ==> Get(rest, k') == Get(t, k')
    requires k in Keys(t) ==> Keys(rest) == Keys(t)
    requires k !in Keys(t) ==> rest == t + [(k, v)]
    ensures Get([x] + rest, k) == Some(v)
    ensures forall k' :: k' != k ==> Get([x] + rest, k') == Get([x] + t, k')
    ensures k in Keys([x] + t) ==> Keys([x] + rest) == Keys([x] + t)
    ensures k !in Keys([x] + t) ==> [x] + rest == [x] + t + [(k, v)]
  {
    assert ([x] + rest)[1..] == rest;
    assert ([x] + t)[1..] == t;
    assert Keys([x] + rest) == [x.0] + Keys(rest);
    assert Keys([x] + t) == [x.0] + Keys(t);
    if k !in Keys([x] + t) {
      ConsSnoc(x, t, (k, v));
    }
  }

  lemma ConsSnoc<T>(x: T, s: seq<T>, y: T)
    ensures [x] + (s + [y]) == ([x] + s) + [y]
  {
  }

  /** `unset($a[$k])`. */
  function Remove<K(==, !new), V>(a: seq<(K, V)>, k: K): (r: seq<(K, V)>)
    ensures Get(r, k) == None
    ensures forall k' :: k' != k ==> Get(r, k') == Get(a, k')
    ensures k !in Keys(a) ==> r == a
    ensures |r| <= |a|
  {
    if a == [] then []
    else if a[0].0 == k then Remove(a[1..], k)
    else [a[0]] + Remove(a[1..], k)
  }

  lemma {:induction false} PutKeepsDistinct<K(!new), V>(a: seq<(K, V)>, k: K, v: V)
    requires Distinct(a)
    ensures Distinct(Put(a, k, v))
  {
    var r := Put(a, k, v);
    if k in Keys(a) {
      assert Keys(r) == Keys(a);
      forall i, j | 0 <= i < j < |r| ensures r[i].0 != r[j].0 {
        assert Keys(r)[i] == Keys(a)[i] && Keys(r)[j] == Keys(a)[j];
      }
    } else {
      forall i, j | 0 <= i < j < |r| ensures r[i].0 != r[j].0 {
        if j == |a| {
          assert Keys(a)[i] == a[i].0;
        }
      }
    }
  }

  /** With distinct keys, each entry is what its key reads. */
  lemma {:induction false} GetAt<K(!new), V>(a: seq<(K, V)>, i: nat)
    requires Distinct(a)
    requires i < |a|
    ensures Get(a, a[i].0) == Some(a[i].1)
  {
    if i > 0 {
      assert a[0].0 != a[i].0;
      assert a[1..][i - 1] == a[i];
      GetAt(a[1..], i - 1);
    }
  }

  /** Assigning a key the array has replaces the value where it stands. */
  lemma PutInPlace<K(!new), V>(a: seq<(K, V)>, j: nat, v: V)
    requires Distinct(a) && j < |a|
    ensures Put(a, a[j].0, v) == a[j := (a[j].0, v)]
  {
    hide Put, Get, Keys;
    var k := a[j].0;
    var r := Put(a, k, v);
    var u := a[j := (k, v)];
    assert Keys(u) == Keys(a);
    assert k in Keys(a) by { assert Keys(a)[j] == k; }
    assert Distinct(u);
    forall k' ensures Get(u, k') == Get(r, k') {
      if k' in Keys(a) {
        var i :| 0 <= i < |a| && Keys(a)[i] == k';
        GetAt(u, i);
        GetAt(a, i);
      }
    }
    SameEntries(u, r);
  }

  /** Two arrays with the same keys in the same order that read the same are the same. */
  lemma SameEntries<K(!new), V>(a: seq<(K, V)>, b: seq<(K, V)>)
    requires Distinct(a) && Keys(a) == Keys(b)
    requires forall k :: Get(a, k) == Get(b, k)
    ensures a == b
  {
    assert |a| == |Keys(a)| == |b|;
    assert Distinct(b) by {
      forall i, j | 0 <= i < j < |b| ensures b[i].0 != b[j].0 {
        assert Keys(b)[i] == a[i].0 && Keys(b)[j] == a[j].0;
      }
    }
    forall i | 0 <= i < |a| ensures a[i] == b[i] {
      assert Keys(b)[i] == a[i].0;
      GetAt(a, i);
      GetAt(b, i);
    }
  }

  lemma DistinctTail<K(!new), V>(a: seq<(K, V)>)
    requires Distinct(a) && a != []
    ensures Distinct(a[1..])
  {
    var tail := a[1..];
    forall p, q | 0 <= p < q < |tail| ensures tail[p].0 != tail[q].0 {
      assert tail[p] == a[p + 1] && tail[q] == a[q + 1];
    }
  }

  /** Replacing a key keeps the count; a new key adds one. */
  lemma PutCount<K(!new), V>(a: seq<(K, V)>, k: K, v: V)
    ensures |Put(a, k, v)| == if k in Keys(a) then |a| else |a| + 1
  {
    if k in Keys(a) {
      assert |Keys(Put(a, k, v))| == |Keys(a)|;
    }
  }

  /** `$a[$k] = $v` introduces no entry other than (k, v). */
  lemma PutEntries<K(!new), V>(a: seq<(K, V)>, k: K, v: V)
    ensures forall p :: p in Put(a, k, v) ==> p in a || p == (k, v)
  {
    if a != [] && a[0].0 != k {
      PutEntries(a[1..], k, v);
      assert Put(a, k, v) == [a[0]] + Put(a[1..], k, v);
    }
  }

  /** `$a[$k] = $v` removes no key. */
  lemma PutKeepsKeys<K(!new), V>(a: seq<(K, V)>, k: K, v: V)
    ensures k in Keys(Put(a, k, v))
    ensures forall k' :: k' in Keys(a) ==> k' in Keys(Put(a, k, v))
  {
    forall k' | k' in Keys(a) ensures k' in Keys(Put(a, k, v)) {
      if k' != k {
        assert Get(Put(a, k, v), k') == Get(a, k');
      }
    }
  }

  /** Assignments in order, as a PHP loop `$a[$k] = $v` over the pairs does. */
  function PutAll<K(==, !new), V>(a: seq<(K, V)>, ps: seq<(K, V)>): seq<(K, V)>
  {
    if ps == [] then a else Put(PutAll(a, ps[..|ps| - 1]), ps[|ps| - 1].0, ps[|ps| - 1].1)
  }

  lemma PutAllNothing<K(!new), V>(a: seq<(K, V)>, ps: seq<(K, V)>)
    requires ps == []
    ensures PutAll(a, ps) == a
  {
  }

  lemma PutAllStep<K(!new), V>(a: seq<(K, V)>, ps: seq<(K, V)>, i: nat)
    requires i < |ps|
    ensures PutAll(a, ps[..i + 1]) == Put(PutAll(a, ps[..i]), ps[i].0, ps[i].1)
  {
    assert ps[..i + 1][..i] == ps[..i];
  }

  /** The loop `foreach ($ps as [$k, $v]) $a[$k] = $v;`. */
  method PutEach<K(==, !new), V>(a: seq<(K, V)>, ps: seq<(K, V)>) returns (r: seq<(K, V)>)
    ensures r == PutAll(a, ps)
  {
    r := a;
    var i := 0;
    while i < |ps|
      invariant 0 <= i <= |ps|
      invariant r == PutAll(a, ps[..i])
    {
      PutAllStep(a, ps, i);
      r := Put(r, ps[i].0, ps[i].1);
      i := i + 1;
    }
    assert ps[..|ps|] == ps;
  }

  /** After the assignments the keys are the old keys and the assigned ones. */
  lemma {:induction false} PutAllKeys<K(!new), V>(a: seq<(K, V)>, ps: seq<(K, V)>)
    ensures forall k :: k in Keys(PutAll(a, ps)) <==> k in Keys(a) || exists p :: p in ps && p.0 == k
    decreases |ps|
  {
    if ps != [] {
      var init := ps[..|ps| - 1];
      var last := ps[|ps| - 1];
      PutAllKeys(a, init);
      assert ps == init + [last];
      var before := PutAll(a, init);
      forall k
        ensures k in Keys(Put(before, last.0, last.1)) <==> k in Keys(before) || k == last.0
      {
        if k != last.0 {
          assert Get(Put(before, last.0, last.1), k) == Get(before, k);
        }
      }
    }
  }

  /** The value a key ends up with is the one assigned to it last. */
  lemma {:induction false} PutAllLastWins<K(!new), V>(a: seq<(K, V)>, ps: seq<(K, V)>, i: nat)
    requires i < |ps|
    requires forall j :: i < j < |ps| ==> ps[j].0 != ps[i].0
    ensures Get(PutAll(a, ps), ps[i].0) == Some(ps[i].1)
    decreases |ps|
  {
    var init := ps[..|ps| - 1];
    if i < |ps| - 1 {
      PutAllLastWins(a, init, i);
    }
  }

  /** A key every assignment gives the same value ends up with that value. */
  lemma {:induction false} PutAllAgreeing<K(!new), V>(a: seq<(K, V)>, ps: seq<(K, V)>, i: nat)
    requires i < |ps|
    requires forall j :: 0 <= j < |ps| && ps[j].0 == ps[i].0 ==> ps[j].1 == ps[i].1
    ensures Get(PutAll(a, ps), ps[i].0) == Some(ps[i].1)
    decreases |ps|
  {
    var init := ps[..|ps| - 1];
    var last := ps[|ps| - 1];
    if last.0 != ps[i].0 {
      PutAllAgreeing(a, init, i);
    }
  }

  /** The keys of `ks` not in `drop`, in their order: what `unset` of each dropped key leaves. */
  function Without<K(==, !new)>(ks: seq<K>, drop: seq<K>): (r: seq<K>)
    ensures forall x :: x in r <==> x in ks && x !in drop
  {
    if ks == [] then [] else (if ks[0] in drop then [] else [ks[0]]) + Without(ks[1..], drop)
  }

  lemma {:induction false} WithoutSnoc<K(!new)>(ks: seq<K>, x: K, drop: seq<K>)
    ensures Without(ks + [x], drop) == Without(ks, drop) + (if x in drop then [] else [x])
    decreases |ks|
  {
    if ks != [] {
      assert (ks + [x])[1..] == ks[1..] + [x];
      WithoutSnoc(ks[1..], x, drop);
    }
  }

  lemma {:induction false} WithoutAgain<K(!new)>(ks: seq<K>, drop: seq<K>, k: K)
    ensures Without(Without(ks, drop), [k]) == Without(ks, drop + [k])
    decreases |ks|
  {
    if ks != [] {
      WithoutAgain(ks[1..], drop, k);
      var head := if ks[0] in drop then [] else [ks[0]];
      WithoutAppend(head, Without(ks[1..], drop), [k]);
    }
  }

  lemma {:induction false} WithoutAppend<K(!new)>(xs: seq<K>, ys: seq<K>, drop: seq<K>)
    ensures Without(xs + ys, drop) == Without(xs, drop) + Without(ys, drop)
    decreases |xs|
  {
    if xs != [] {
      var head := if xs[0] in drop then [] else [xs[0]];
      assert (xs + ys)[0] == xs[0] && (xs + ys)[1..] == xs[1..] + ys;
      assert Without(xs + ys, drop) == head + Without(xs[1..] + ys, drop);
      WithoutAppend(xs[1..], ys, drop);
      assert Without(xs, drop) == head + Without(xs[1..], drop);
    } else {
      assert xs + ys == ys;
    }
  }

  lemma {:induction false} WithoutNothing<K(!new)>(ks: seq<K>)
    ensures Without(ks, []) == ks
    decreases |ks|
  {
    if ks != [] {
      WithoutNothing(ks[1..]);
      assert ks == [ks[0]] + ks[1..];
    }
  }

  lemma WithoutAbsent<K(!new)>(ks: seq<K>, k: K)
    requires k !in ks
    ensures Without(ks, [k]) == ks
  {
  }

  /** `unset($a[$k])` leaves the other keys in their order. */
  lemma {:induction false} RemoveKeys<K(!new), V>(a: seq<(K, V)>, k: K)
    ensures Keys(Remove(a, k)) == Without(Keys(a), [k])
    decreases |a|
  {
    if a != [] {
      RemoveKeys(a[1..], k);
      assert Keys(a)[1..] == Keys(a[1..]);
      if a[0].0 != k {
        assert Keys([a[0]] + Remove(a[1..], k)) == [a[0].0] + Keys(Remove(a[1..], k));
      }
    }
  }

  /** A two-level array `$a[$k1][$k2]`: the inner array under k1, `[]` when there is none. */
  function Inner<K1(==, !new), K2(==, !new), V>(a: seq<(K1, seq<(K2, V)>)>, k1: K1): seq<(K2, V)>
  {
    Get(a, k1).GetOr([])
  }

  /** `$a[$k1][$k2] ?? null`. */
  function Entry<K1(==, !new), K2(==, !new), V>(a: seq<(K1, seq<(K2, V)>)>, k1: K1, k2: K2): Option<V>
  {
    Get(Inner(a, k1), k2)
  }

  /**
   * `$a[$k1][$k2] = $v`, creating the inner array when needed: that entry is set, every
   * other entry kept, and a new outer key goes last.
   */
  function PutIn<K1(==, !new), K2(==, !new), V>(a: seq<(K1, seq<(K2, V)>)>, k1: K1, k2: K2, v: V): (r: seq<(K1, seq<(K2, V)>)>)
    ensures Entry(r, k1, k2) == Some(v)
    ensures forall m, f :: (m, f) != (k1, k2) ==> Entry(r, m, f) == Entry(a, m, f)
    ensures Keys(r) == if HasKey(a, k1) then Keys(a) else Keys(a) + [k1]
    ensures forall m :: m != k1 ==> Get(r, m) == Get(a, m)
    ensures Get(r, k1) == Some(Put(Inner(a, k1), k2, v))
  {
    var inner := Put(Inner(a, k1), k2, v);
    var r := Put(a, k1, inner);
    assert Get(r, k1) == Some(inner);
    assert Keys(r) == if HasKey(a, k1) then Keys(a) else Keys(a) + [k1] by {
      if !HasKey(a, k1) {
        assert r == a + [(k1, inner)];
      }
    }
    forall m, f | (m, f) != (k1, k2) ensures Entry(r, m, f) == Entry(a, m, f) {
      if m != k1 {
        assert Get(r, m) == Get(a, m);
      }
    }
    r
  }

  /**
   * `unset($a[$k1][$k2])`: that entry goes, every other entry and every outer key stays,
   * even one whose inner array becomes empty.
   */
  function UnsetIn<K1(==, !new), K2(==, !new), V>(a: seq<(K1, seq<(K2, V)>)>, k1: K1, k2: K2): (r: seq<(K1, seq<(K2, V)>)>)
    ensures Entry(r, k1, k2) == None
    ensures forall m, f :: (m, f) != (k1, k2) ==> Entry(r, m, f) == Entry(a, m, f)
    ensures Keys(r) == Keys(a)
  {
    if HasKey(a, k1) then
      var r := Put(a, k1, Remove(Inner(a, k1), k2));
      assert forall m, f :: m != k1 ==> Entry(r, m, f) == Entry(a, m, f);
      r
    else a
  }

  /** Removing what was just put into an empty slot gives the old entries back, and keeps the outer key. */
  lemma {:induction false} PutInThenUnsetIn<K1(!new), K2(!new), V>(a: seq<(K1, seq<(K2, V)>)>, k1: K1, k2: K2, v: V, m: K1, f: K2)
    requires Entry(a, k1, k2).None?
    ensures Entry(UnsetIn(PutIn(a, k1, k2, v), k1, k2), m, f) == Entry(a, m, f)
    ensures HasKey(UnsetIn(PutIn(a, k1, k2, v), k1, k2), k1)
  {
    var s := PutIn(a, k1, k2, v);
    if (m, f) != (k1, k2) {
      assert Entry(s, m, f) == Entry(a, m, f);
    }
    assert k1 in Keys(s);
  }

  /** Each value once, where it first occurs: the `in_array` guarded append. */
  function Dedup<T(==)>(xs: seq<T>): seq<T>
  {
    if xs == [] then []
    else
      var d := Dedup(xs[..|xs| - 1]);
      if xs[|xs| - 1] in d then d else d + [xs[|xs| - 1]]
  }

  /** The loop that appends a value unless `in_array` finds it already there. */
  method DedupEach<T(==)>(xs: seq<T>) returns (r: seq<T>)
    ensures r == Dedup(xs)
  {
    r := [];
    var i := 0;
    while i < |xs|
      invariant 0 <= i <= |xs|
      invariant r == Dedup(xs[..i])
    {
      assert xs[..i + 1][..i] == xs[..i];
      if xs[i] !in r {
        r := r + [xs[i]];
      }
      i := i + 1;
    }
    assert xs[..|xs|] == xs;
  }

  /** Dedup keeps every value and repeats none. */
  lemma {:induction false} DedupExactly<T>(xs: seq<T>)
    ensures forall x :: x in Dedup(xs) <==> x in xs
    ensures forall i, j :: 0 <= i < j < |Dedup(xs)| ==> Dedup(xs)[i] != Dedup(xs)[j]
    decreases |xs|
  {
    if xs != [] {
      var init := xs[..|xs| - 1];
      DedupExactly(init);
      assert xs == init + [xs[|xs| - 1]];
    }
  }
}

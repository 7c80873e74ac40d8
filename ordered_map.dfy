/** A JavaScript `Map`: an association list kept in insertion order. Setting a
    key that is already present replaces its value where it stands; a new key
    goes to the end. Iteration (`for ... of`, `.entries()`) follows the list. */
module OrderedMap {
  import opened Base

  type Entries<K, V> = seq<(K, V)>

  function Keys<K, V>(m: Entries<K, V>): seq<K> {
    seq(|m|, i requires 0 <= i < |m| => m[i].0)
  }

  ghost predicate Distinct<K>(s: seq<K>) {
    forall i, j :: 0 <= i < j < |s| ==> s[i] != s[j]
  }

  /** No key occurs twice: what a `Map` guarantees. */
  ghost predicate DistinctKeys<K, V>(m: Entries<K, V>) {
    Distinct(Keys(m))
  }

  /** `m.get(k)`, with `undefined` as `None`. */
  function Get<K(==), V>(m: Entries<K, V>, k: K): (r: Option<V>)
    ensures r.None? <==> k !in Keys(m)
    ensures r.Some? ==> (k, r.value) in m
  {
    if m == [] then None
    else if m[0].0 == k then
      assert Keys(m)[0] == k;
      Some(m[0].1)
    else
      assert Keys(m) == [m[0].0] + Keys(m[1..]);
      Get(m[1..], k)
  }

  /** The keys of a non-empty map: its first key, then the rest's. */
  lemma KeysCons<K, V>(m: Entries<K, V>)
    requires m != []
    ensures Keys(m) == [m[0].0] + Keys(m[1..])
  {
    assert Keys(m)[1..] == Keys(m[1..]);
  }

  /** Appending a key keeps the keys distinct exactly when it is new. */
  lemma DistinctSnoc<K>(s: seq<K>, x: K)
    ensures Distinct(s + [x]) <==> Distinct(s) && x !in s
  {
    if Distinct(s + [x]) {
      forall i | 0 <= i < |s| ensures s[i] != x {
        assert (s + [x])[i] == s[i] && (s + [x])[|s|] == x;
      }
      forall i, j | 0 <= i < j < |s| ensures s[i] != s[j] {
        assert (s + [x])[i] == s[i] && (s + [x])[j] == s[j];
      }
    }
  }

  /** `m.set(k, v)`: the value of a present key is replaced where it stands,
      a new key is appended, and every other key keeps its value. */
  function Set<K(==,!new), V>(m: Entries<K, V>, k: K, v: V): (r: Entries<K, V>)
    ensures Get(r, k) == Some(v)
    ensures Keys(r) == if k in Keys(m) then Keys(m) else Keys(m) + [k]
    ensures forall k' :: k' != k ==> Get(r, k') == Get(m, k')
    ensures DistinctKeys(m) ==> DistinctKeys(r)
  {
    DistinctSnoc(Keys(m), k);
    if m == [] then [(k, v)]
    else if m[0].0 == k then
      var r := [(k, v)] + m[1..];
      assert r[1..] == m[1..];
      KeysCons(m);
      KeysCons(r);
      r
    else
      var rest := Set(m[1..], k, v);
      var r := [m[0]] + rest;
      assert r[1..] == rest;
      KeysCons(m);
      KeysCons(r);
      r
  }

  /** The map after `m.set(p.0, p.1)` for every `p` of `ps` in order. */
  function SetAll<K(==,!new), V>(m: Entries<K, V>, ps: seq<(K, V)>): Entries<K, V> {
    if ps == [] then m
    else Set(SetAll(m, ps[..|ps| - 1]), ps[|ps| - 1].0, ps[|ps| - 1].1)
  }

  /** Sets every pair into `m`, unless producing the pairs threw. */
  function Apply<K(==,!new), V>(m: Entries<K, V>, rs: Result<seq<(K, V)>>): (r: Result<Entries<K, V>>)
    ensures r.Err? <==> rs.Err?
    ensures r.Err? ==> r.error == rs.error
  {
    if rs.Err? then Err(rs.error) else Ok(SetAll(m, rs.value))
  }

  /** The value of the last pair of `ps` whose key is `k`. */
  function LastValue<K(==), V>(ps: seq<(K, V)>, k: K): Option<V> {
    if ps == [] then None
    else if ps[|ps| - 1].0 == k then Some(ps[|ps| - 1].1)
    else LastValue(ps[..|ps| - 1], k)
  }

  /** `ks` followed by each element of `s` that is not already there, in order
      of first appearance. */
  function AppendNew<K(==)>(ks: seq<K>, s: seq<K>): seq<K> {
    if s == [] then ks
    else
      var r := AppendNew(ks, s[..|s| - 1]);
      if s[|s| - 1] in r then r else r + [s[|s| - 1]]
  }

  /** The elements of `s` without repetitions, in order of first appearance. */
  function Dedup<K(==)>(s: seq<K>): seq<K> {
    AppendNew([], s)
  }

  /** Last write wins: after a series of `set` calls, a key holds the value of
      the last call for it, and keys keep the position of their first call. */
  lemma {:induction false} SetAllMeaning<K(!new), V>(m: Entries<K, V>, ps: seq<(K, V)>, k: K)
    ensures Get(SetAll(m, ps), k) == if LastValue(ps, k).Some? then LastValue(ps, k) else Get(m, k)
    ensures Keys(SetAll(m, ps)) == AppendNew(Keys(m), Keys(ps))
    ensures DistinctKeys(m) ==> DistinctKeys(SetAll(m, ps))
  {
    if ps != [] {
      var init := ps[..|ps| - 1];
      SetAllMeaning(m, init, k);
      assert Keys(init) == Keys(ps)[..|ps| - 1];
    }
  }

  /** `SetAll` from the empty map: the keys are those of `ps` without
      repetition, in order of first appearance, each with its last value. */
  lemma SetAllFromEmpty<K(!new), V>(ps: seq<(K, V)>)
    ensures Keys(SetAll([], ps)) == Dedup(Keys(ps))
    ensures DistinctKeys(SetAll([], ps))
    ensures forall k :: Get(SetAll([], ps), k) == LastValue(ps, k)
  {
    forall k ensures Get(SetAll([], ps), k) == LastValue(ps, k) {
      SetAllMeaning([], ps, k);
    }
    if ps != [] {
      SetAllMeaning([], ps, ps[0].0);
    } else {
      assert Keys(SetAll([], ps)) == [];
    }
  }

  lemma {:induction false} SetAllAppend<K(!new), V>(m: Entries<K, V>, a: seq<(K, V)>, b: seq<(K, V)>)
    ensures SetAll(m, a + b) == SetAll(SetAll(m, a), b)
  {
    if b != [] {
      assert (a + b)[..|a + b| - 1] == a + b[..|b| - 1];
      SetAllAppend(m, a, b[..|b| - 1]);
    } else {
      assert a + b == a;
    }
  }

  /** A later series of writes overrides an earlier one. */
  lemma {:induction false} LastValueAppend<K, V>(a: seq<(K, V)>, b: seq<(K, V)>, k: K)
    ensures LastValue(a + b, k) == if LastValue(b, k).Some? then LastValue(b, k) else LastValue(a, k)
  {
    if b == [] {
      assert a + b == a;
    } else {
      assert (a + b)[..|a + b| - 1] == a + b[..|b| - 1];
      LastValueAppend(a, b[..|b| - 1], k);
    }
  }

  lemma {:induction false} LastValueSome<K, V>(ps: seq<(K, V)>, k: K)
    ensures LastValue(ps, k).Some? <==> k in Keys(ps)
    ensures LastValue(ps, k).Some? ==> (k, LastValue(ps, k).value) in ps
  {
    if ps != [] {
      LastValueSome(ps[..|ps| - 1], k);
      assert Keys(ps) == Keys(ps[..|ps| - 1]) + [ps[|ps| - 1].0];
    }
  }

  lemma {:induction false} AppendNewMembers<K>(ks: seq<K>, s: seq<K>, x: K)
    ensures x in AppendNew(ks, s) <==> x in ks || x in s
  {
    if s != [] {
      AppendNewMembers(ks, s[..|s| - 1], x);
      assert s == s[..|s| - 1] + [s[|s| - 1]];
    }
  }

  lemma ConcatAssoc<T>(x: seq<T>, y: seq<T>, z: seq<T>)
    ensures x + y + z == x + (y + z)
  {
  }

  lemma SetAllSingle<K(!new), V>(m: Entries<K, V>, p: (K, V))
    ensures SetAll(m, [p]) == Set(m, p.0, p.1)
  {
    assert [p][..0] == [];
  }

  /** Setting a key other than the first leaves the first pair in front. */
  lemma SetCons<K(!new), V>(m: Entries<K, V>, k: K, v: V)
    requires m != [] && m[0].0 != k
    ensures Set(m, k, v) == [m[0]] + Set(m[1..], k, v)
  {
  }

  lemma ConsSnoc<T>(s: seq<T>, x: T)
    requires s != []
    ensures [s[0]] + (s[1..] + [x]) == s + [x]
  {
    assert s == [s[0]] + s[1..];
  }

  /** Setting a key that is not present appends the pair. */
  lemma {:induction false} SetNew<K(!new), V>(m: Entries<K, V>, k: K, v: V)
    requires k !in Keys(m)
    ensures Set(m, k, v) == m + [(k, v)]
  {
    if m != [] {
      KeysCons(m);
      SetNew(m[1..], k, v);
      SetCons(m, k, v);
      ConsSnoc(m, (k, v));
    }
  }

  /** Setting pairs whose keys are all new appends them in order. */
  lemma {:induction false} SetAllFresh<K(!new), V>(m: Entries<K, V>, ps: seq<(K, V)>)
    requires DistinctKeys(m + ps)
    ensures SetAll(m, ps) == m + ps
  {
    if ps != [] {
      var init, last := ps[..|ps| - 1], ps[|ps| - 1];
      assert m + ps == (m + init) + [last];
      assert Keys(m + init) == Keys(m + ps)[..|m + ps| - 1];
      assert last.0 == Keys(m + ps)[|m + ps| - 1];
      SetAllFresh(m, init);
      SetNew(m + init, last.0, last.1);
    }
  }
}

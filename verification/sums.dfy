/** Sums of real values over the entries of a map. The programs visit a dictionary's
    entries in insertion order; a sum of reals does not depend on the order, so the
    definition takes the keys in any order and the lemmas show that every order agrees.
    Also the two-level store into a map of maps. */
module MapSums {

  ghost function SumBy<K, V>(m: map<K, V>, f: V -> real): real
    decreases m.Keys
  {
    if m.Keys == {} then 0.0 else var k :| k in m.Keys; f(m[k]) + SumBy(m - {k}, f)
  }

  /** Any key may be taken out first. */
  lemma SumByRemove<K, V>(m: map<K, V>, f: V -> real, k: K)
    requires k in m
    ensures SumBy(m, f) == f(m[k]) + SumBy(m - {k}, f)
    decreases m.Keys
  {
    var j :| j in m.Keys && SumBy(m, f) == f(m[j]) + SumBy(m - {j}, f);
    if j != k {
      var mj, mk := m - {j}, m - {k};
      SumByRemove(mj, f, k);
      SumByRemove(mk, f, j);
      assert mj - {k} == mk - {j};
    }
  }

  /** Sums are monotone in the summed function. */
  lemma {:induction false} SumByMono<K, V>(m: map<K, V>, f: V -> real, g: V -> real)
    requires forall k :: k in m ==> f(m[k]) <= g(m[k])
    ensures SumBy(m, f) <= SumBy(m, g)
    decreases m.Keys
  {
    if m.Keys != {} {
      var k :| k in m.Keys;
      SumByRemove(m, f, k);
      SumByRemove(m, g, k);
      SumByMono(m - {k}, f, g);
    }
  }

  lemma {:induction false} SumByNonNegative<K, V>(m: map<K, V>, f: V -> real)
    requires forall k :: k in m ==> 0.0 <= f(m[k])
    ensures 0.0 <= SumBy(m, f)
    decreases m.Keys
  {
    if m.Keys != {} {
      var k :| k in m.Keys;
      SumByRemove(m, f, k);
      SumByNonNegative(m - {k}, f);
    }
  }

  /** The part of m whose keys lie in ks. */
  function Restrict<K, V>(m: map<K, V>, ks: set<K>): (r: map<K, V>)
    ensures r.Keys == m.Keys * ks
    ensures forall k :: k in r ==> r[k] == m[k]
  {
    map k | k in m && k in ks :: m[k]
  }

  /** A loop that takes the keys of `pending` out one by one adds up the whole sum. */
  lemma SumByStep<K, V>(m: map<K, V>, f: V -> real, pending: set<K>, k: K)
    requires k in pending && k in m
    ensures SumBy(Restrict(m, pending), f) == f(m[k]) + SumBy(Restrict(m, pending - {k}), f)
  {
    var r := Restrict(m, pending);
    SumByRemove(r, f, k);
    assert r - {k} == Restrict(m, pending - {k});
  }

  /** The accumulator of such a loop, one key further. */
  lemma SumByLoopStep<K, V>(m: map<K, V>, f: V -> real, pending: set<K>, k: K, acc: real)
    requires k in pending && k in m && acc + SumBy(Restrict(m, pending), f) == SumBy(m, f)
    ensures (acc + f(m[k])) + SumBy(Restrict(m, pending - {k}), f) == SumBy(m, f)
  {
    SumByStep(m, f, pending, k);
  }

  /** A map built by such a loop, one key further: it holds f of every visited entry. */
  lemma MapLoopStep<K, V, W>(out: map<K, W>, m: map<K, V>, f: V -> W, pending: set<K>, k: K)
    requires k in pending && pending <= m.Keys && out.Keys == m.Keys - pending
    requires forall x :: x in out ==> out[x] == f(m[x])
    ensures out[k := f(m[k])].Keys == m.Keys - (pending - {k})
    ensures forall x :: x in out[k := f(m[k])] ==> out[k := f(m[k])][x] == f(m[x])
  {
  }

  lemma SumByRestrictAll<K, V>(m: map<K, V>, f: V -> real)
    ensures SumBy(Restrict(m, m.Keys), f) == SumBy(m, f)
  {
    assert Restrict(m, m.Keys) == m;
  }

  /** A two-level store: the entry (d, i) of a map of maps is set, the inner map being
      created when missing. */
  function NestedPut<K, J, V>(s: map<K, map<J, V>>, d: K, i: J, v: V): map<K, map<J, V>>
  {
    s[d := (if d in s then s[d] else map[])[i := v]]
  }

  /** Stores at two different places commute. */
  lemma NestedPutCommutes<K, J, V>(s: map<K, map<J, V>>, d: K, i: J, a: V, e: K, j: J, b: V)
    requires (d, i) != (e, j)
    ensures NestedPut(NestedPut(s, d, i, a), e, j, b) == NestedPut(NestedPut(s, e, j, b), d, i, a)
  {
    if d == e {
      var inner := if d in s then s[d] else map[];
      assert inner[i := a][j := b] == inner[j := b][i := a];
    }
  }

  /** A second store at the same place replaces the first. */
  lemma NestedPutOverwrites<K, J, V>(s: map<K, map<J, V>>, d: K, i: J, a: V, b: V)
    ensures NestedPut(NestedPut(s, d, i, a), d, i, b) == NestedPut(s, d, i, b)
  {
    var inner := if d in s then s[d] else map[];
    assert inner[i := a][i := b] == inner[i := b];
  }
}

/** Value types and small library facts that every component shares. */
module Prelude {

  datatype Option<+T> = None | Some(value: T)

  lemma EmptyOrMember<T>(s: set<T>)
    ensures s == {} || exists x :: x in s
  {
    if forall x :: x !in s { assert s == {}; }
  }

  /** A member to choose from a non-empty set. */
  lemma Member<T>(s: set<T>) returns (x: T)
    requires s != {}
    ensures x in s
  {
    EmptyOrMember(s);
    x :| x in s;
  }

  newtype byte = x: int | 0 <= x < 0x100

  /** True iff `pattern` occurs in `s` at index `i`. */
  predicate OccursAt(s: seq<byte>, pattern: seq<byte>, i: nat) {
    i + |pattern| <= |s| && s[i..i + |pattern|] == pattern
  }

  /** The index of the first occurrence of `pattern`, or -1: Go's bytes.Index. */
  function Index(s: seq<byte>, pattern: seq<byte>): (r: int)
    ensures r >= 0 ==> OccursAt(s, pattern, r)
    ensures forall i: nat :: i < r ==> !OccursAt(s, pattern, i)
    ensures r < 0 ==> r == -1 && forall i: nat :: !OccursAt(s, pattern, i)
  {
    IndexFrom(s, pattern, 0)
  }

  function IndexFrom(s: seq<byte>, pattern: seq<byte>, from: nat): (r: int)
    requires forall i: nat :: i < from ==> !OccursAt(s, pattern, i)
    ensures r >= 0 ==> OccursAt(s, pattern, r)
    ensures forall i: nat :: i < r ==> !OccursAt(s, pattern, i)
    ensures r < 0 ==> r == -1 && forall i: nat :: !OccursAt(s, pattern, i)
    decreases |s| - from
  {
    if from + |pattern| > |s| then -1
    else if OccursAt(s, pattern, from) then from
    else IndexFrom(s, pattern, from + 1)
  }

  /** Appending bytes never moves an occurrence that was already found, and a
      new first occurrence must reach into the appended bytes. */
  lemma IndexExtend(s: seq<byte>, t: seq<byte>, pattern: seq<byte>)
    ensures Index(s, pattern) >= 0 ==> Index(s + t, pattern) == Index(s, pattern)
    ensures Index(s, pattern) < 0 && Index(s + t, pattern) >= 0 ==>
              Index(s + t, pattern) + |pattern| > |s|
  {
    forall i: nat | i + |pattern| <= |s|
      ensures OccursAt(s + t, pattern, i) <==> OccursAt(s, pattern, i)
    {
      assert (s + t)[i..i + |pattern|] == s[i..i + |pattern|];
    }
  }
}

/** Sums over the values of a finite map, independent of iteration order. */
module MapSums {

  ghost function Sum<K, V>(m: map<K, V>, f: V -> nat): nat
    decreases |m|
  {
    if m == map[] then 0
    else
      var k :| k in m;
      f(m[k]) + Sum(m - {k}, f)
  }

  lemma SumNone<K, V>(f: V -> nat)
    ensures Sum<K, V>(map[], f) == 0
  {
  }

  /** Whichever key is taken out first, the total is the same. */
  lemma {:induction false} SumRemove<K, V>(m: map<K, V>, f: V -> nat, k: K)
    requires k in m
    ensures Sum(m, f) == f(m[k]) + Sum(m - {k}, f)
    decreases |m|
  {
    var c :| c in m && Sum(m, f) == f(m[c]) + Sum(m - {c}, f);
    if c != k {
      SumRemove(m - {c}, f, k);
      SumRemove(m - {k}, f, c);
      assert m - {c} - {k} == m - {k} - {c};
    }
  }

  /** Storing a value adds it and takes back what the key held before. */
  lemma SumInsert<K, V>(m: map<K, V>, f: V -> nat, k: K, v: V)
    ensures Sum(m[k := v], f) == Sum(m - {k}, f) + f(v)
    ensures k !in m ==> Sum(m[k := v], f) == Sum(m, f) + f(v)
    ensures k in m ==> Sum(m[k := v], f) + f(m[k]) == Sum(m, f) + f(v)
  {
    SumRemove(m[k := v], f, k);
    assert m[k := v] - {k} == m - {k};
    if k in m { SumRemove(m, f, k); } else { assert m - {k} == m; }
  }

  lemma SumStore<K, V>(m: map<K, V>, f: V -> nat, k: K, v: V)
    ensures Sum(m[k := v], f) + (if k in m then f(m[k]) else 0) == Sum(m, f) + f(v)
  {
    SumInsert(m, f, k, v);
  }

  lemma {:induction false} SumMember<K, V>(m: map<K, V>, f: V -> nat, k: K)
    requires k in m
    ensures f(m[k]) <= Sum(m, f)
  {
    SumRemove(m, f, k);
  }
}

/** Sorting by an integer key; what happens among equals is left open. */
module Sorting {

  ghost predicate Sorted<T(!new)>(s: seq<T>, key: T -> int) {
    forall i, j :: 0 <= i < j < |s| ==> key(s[i]) <= key(s[j])
  }

  method SortBy<T(!new)>(s: seq<T>, key: T -> int) returns (sorted: seq<T>)
    ensures multiset(sorted) == multiset(s) && |sorted| == |s| && Sorted(sorted, key)
  {
    sorted := [];
    for i := 0 to |s|
      invariant multiset(sorted) == multiset(s[..i]) && |sorted| == i && Sorted(sorted, key)
    {
      assert s[..i + 1] == s[..i] + [s[i]];
      sorted := Insert(sorted, s[i], key);
    }
    assert s[..|s|] == s;
  }

  method Insert<T(!new)>(s: seq<T>, x: T, key: T -> int) returns (sorted: seq<T>)
    requires Sorted(s, key)
    ensures multiset(sorted) == multiset(s) + multiset{x} && |sorted| == |s| + 1 && Sorted(sorted, key)
  {
    var i := |s|;
    while i > 0 && key(s[i - 1]) > key(x)
      invariant 0 <= i <= |s|
      invariant forall j :: i <= j < |s| ==> key(s[j]) > key(x)
    {
      i := i - 1;
    }
    InsertSorted(s, i, x, key);
    InsertContents(s, i, x);
    sorted := s[..i] + [x] + s[i..];
  }

  lemma InsertContents<T(!new)>(s: seq<T>, i: nat, x: T)
    requires i <= |s|
    ensures multiset(s[..i] + [x] + s[i..]) == multiset(s) + multiset{x}
  {
    assert s == s[..i] + s[i..];
  }

  lemma InsertSorted<T(!new)>(s: seq<T>, i: nat, x: T, key: T -> int)
    requires Sorted(s, key) && i <= |s| && (forall j :: i <= j < |s| ==> key(s[j]) > key(x))
             && (i > 0 ==> key(s[i - 1]) <= key(x))
    ensures Sorted(s[..i] + [x] + s[i..], key)
  {
    var sorted := s[..i] + [x] + s[i..];
    forall j | 0 <= j < |sorted| ensures sorted[j] == if j < i then s[j] else if j == i then x else s[j - 1] {
    }
    forall a, b | 0 <= a < b < |sorted| ensures key(sorted[a]) <= key(sorted[b]) {
      assert a < i - 1 ==> key(s[a]) <= key(s[i - 1]);
    }
  }
}

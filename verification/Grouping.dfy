/** Grouping interface observations of one tuple into connections, with an index by SYN
    number that must miss nothing a scan of all groups would find. */
module Grouping {
  import opened Prelude
  import Sorting

  const SECOND := 1_000_000_000

  /** An observation. Times count from the year 1, and are absent when they are zero. */
  datatype Observed = Observed(
    id: nat, interfaceName: nat, synSeen: bool, synSeq: nat, first: Option<nat>, last: Option<nat>)

  type Group = seq<Observed>

  /** `a` began more than two seconds after `b` was last seen. */
  predicate LongAfter(a: Observed, b: Observed) {
    a.first.Some? && b.last.Some? && a.first.value > b.last.value + 2 * SECOND
  }

  predicate Fits(a: Observed, b: Observed) {
    && a.interfaceName != b.interfaceName && (a.synSeen && b.synSeen ==> a.synSeq == b.synSeq)
    && !LongAfter(a, b) && !LongAfter(b, a)
  }

  predicate Accepts(group: Group, c: Observed) { forall other :: other in group ==> Fits(c, other) }

  method SameObservedConnection(c: Observed, group: Group) returns (same: bool)
    ensures same <==> Accepts(group, c)
  {
    for i := 0 to |group|
      invariant forall other :: other in group[..i] ==> Fits(c, other)
    {
      var other := group[i];
      assert group[..i + 1] == group[..i] + [other] && other in group;
      if other.interfaceName == c.interfaceName { return false; }
      if c.synSeen && other.synSeen && c.synSeq != other.synSeq { return false; }
      if LongAfter(c, other) { return false; }
      if LongAfter(other, c) { return false; }
    }
    assert group[..|group|] == group;
    same := true;
  }

  // ----- What grouping may do -----

  /** One candidate joins a group that accepts it, or opens one if none does. */
  ghost predicate Joins(before: seq<Group>, c: Observed, after: seq<Group>) {
    || (exists g :: 0 <= g < |before| && Accepts(before[g], c) && after == before[g := before[g] + [c]])
    || ((forall g :: 0 <= g < |before| ==> !Accepts(before[g], c)) && after == before + [[c]])
  }

  /** How the groups grew, candidate by candidate. */
  ghost predicate Grew(candidates: seq<Observed>, trace: seq<seq<Group>>) {
    && |trace| == |candidates| + 1 && trace[0] == []
    && forall k :: 0 <= k < |candidates| ==> Joins(trace[k], candidates[k], trace[k + 1])
  }

  function Contents(groups: seq<Group>): multiset<Observed>
    decreases |groups|
  {
    if groups == [] then multiset{} else Contents(groups[..|groups| - 1]) + multiset(groups[|groups| - 1])
  }

  /** Any two members of a group fit each other. */
  ghost predicate Coherent(group: Group) {
    group != [] && forall i, j :: 0 <= i < j < |group| ==> Fits(group[i], group[j])
  }

  ghost predicate AllCoherent(groups: seq<Group>) { forall g :: 0 <= g < |groups| ==> Coherent(groups[g]) }

  /** What holds of any two members of a group: they come from different interfaces, saw
      no different SYNs, and neither began more than two seconds after the other ended. */
  lemma MembersMean(group: Group, i: nat, j: nat)
    requires Coherent(group) && i < |group| && j < |group| && i != j
    ensures var a, b := group[i], group[j];
            && a.interfaceName != b.interfaceName
            && (a.synSeen && b.synSeen ==> a.synSeq == b.synSeq)
            && (a.first.Some? && b.last.Some? ==> a.first.value - b.last.value <= 2_000_000_000)
  {
    if i < j { assert Fits(group[i], group[j]); } else { assert Fits(group[j], group[i]); }
  }

  /** Only these are reasons for a group to reject a candidate. */
  lemma RejectionMeans(group: Group, c: Observed)
    ensures !Accepts(group, c) <==>
            exists o :: o in group
                        && (o.interfaceName == c.interfaceName
                            || (o.synSeen && c.synSeen && o.synSeq != c.synSeq)
                            || (c.first.Some? && o.last.Some? && c.first.value - o.last.value > 2_000_000_000)
                            || (o.first.Some? && c.last.Some? && o.first.value - c.last.value > 2_000_000_000))
  {
  }

  lemma {:induction false} ContentsUpdate(groups: seq<Group>, g: nat, c: Observed)
    requires g < |groups|
    ensures Contents(groups[g := groups[g] + [c]]) == Contents(groups) + multiset{c}
    decreases |groups|
  {
    var k := |groups| - 1;
    var after := groups[g := groups[g] + [c]];
    if g < k {
      ContentsUpdate(groups[..k], g, c);
      assert after[..k] == groups[..k][g := groups[..k][g] + [c]];
    } else {
      assert after[..k] == groups[..k];
    }
  }

  lemma JoinKeeps(before: seq<Group>, c: Observed, after: seq<Group>)
    requires Joins(before, c, after) && AllCoherent(before)
    ensures AllCoherent(after) && Contents(after) == Contents(before) + multiset{c}
  {
    if g :| 0 <= g < |before| && Accepts(before[g], c) && after == before[g := before[g] + [c]] {
      ContentsUpdate(before, g, c);
      var group := before[g] + [c];
      forall i, j | 0 <= i < j < |group| ensures Fits(group[i], group[j]) {
        if j == |before[g]| { assert before[g][i] in before[g]; }
      }
      assert Coherent(group);
    } else {
      assert after[..|before|] == before;
      assert Coherent([c]);
    }
  }

  lemma JoinAt(candidates: seq<Observed>, trace: seq<seq<Group>>, k: nat)
    requires Grew(candidates, trace) && k < |candidates|
    ensures Joins(trace[k], candidates[k], trace[k + 1])
    ensures multiset(candidates[..k + 1]) == multiset(candidates[..k]) + multiset{candidates[k]}
  {
    assert candidates[..k + 1] == candidates[..k] + [candidates[k]];
  }

  lemma NextIsSound(candidates: seq<Observed>, trace: seq<seq<Group>>, k: nat)
    requires Grew(candidates, trace) && k < |candidates|
    requires AllCoherent(trace[k]) && Contents(trace[k]) == multiset(candidates[..k])
    ensures AllCoherent(trace[k + 1]) && Contents(trace[k + 1]) == multiset(candidates[..k + 1])
  {
    JoinAt(candidates, trace, k);
    JoinKeeps(trace[k], candidates[k], trace[k + 1]);
  }

  /** However the groups grew, they are a partition of the candidates, and any two
      members of a group fit each other. */
  lemma {:induction false} GroupingIsSound(candidates: seq<Observed>, trace: seq<seq<Group>>, k: nat)
    requires Grew(candidates, trace) && k <= |candidates|
    ensures AllCoherent(trace[k]) && Contents(trace[k]) == multiset(candidates[..k])
  {
    if k > 0 {
      GroupingIsSound(candidates, trace, k - 1);
      NextIsSound(candidates, trace, k - 1);
    }
  }

  // ----- The index -----

  datatype Index = Index(bySYN: map<nat, seq<nat>>, midstream: seq<nat>)

  function Under(index: Index, synSeq: nat): seq<nat> { if synSeq in index.bySYN then index.bySYN[synSeq] else [] }

  /** Every group is listed under the SYN number of each member that has one, and as
      midstream if it was opened without. */
  ghost predicate Indexed(groups: seq<Group>, index: Index) {
    && (forall g: nat, m :: g < |groups| && m in groups[g] && m.synSeen ==> g in Under(index, m.synSeq))
    && (forall g: nat :: g < |groups| ==> groups[g] != [] && (groups[g][0].synSeen || g in index.midstream))
    && (forall s: nat, g: nat :: g in Under(index, s) ==> g < |groups|)
    && (forall g: nat :: g in index.midstream ==> g < |groups|)
  }

  /** The index misses nothing: a group that accepts a candidate with a SYN is listed
      under its number or as midstream. */
  lemma IndexIsComplete(groups: seq<Group>, index: Index, c: Observed, g: nat)
    requires Indexed(groups, index) && g < |groups| && c.synSeen && Accepts(groups[g], c)
    ensures g in Under(index, c.synSeq) || g in index.midstream
  {
    var opener := groups[g][0];
    assert opener in groups[g];
  }

  function List(index: Index, synSeq: nat, g: nat): Index {
    index.(bySYN := index.bySYN[synSeq := Under(index, synSeq) + [g]])
  }

  lemma IndexJoin(groups: seq<Group>, index: Index, c: Observed, g: nat)
    requires Indexed(groups, index) && g < |groups| && (c.synSeen ==> g in Under(index, c.synSeq))
    ensures Indexed(groups[g := groups[g] + [c]], index)
  {
  }

  lemma IndexList(groups: seq<Group>, index: Index, synSeq: nat, g: nat)
    requires Indexed(groups, index) && g < |groups|
    ensures Indexed(groups, List(index, synSeq, g)) && g in Under(List(index, synSeq, g), synSeq)
  {
    var more := List(index, synSeq, g);
    forall s: nat, h: nat ensures h in Under(more, s) <==> h in Under(index, s) || (s == synSeq && h == g) {
      assert s == synSeq ==> Under(more, s) == Under(index, s) + [g];
    }
  }

  /** The groups and index with one more group, that of `c` alone. */
  lemma IndexOpen(groups: seq<Group>, index: Index, c: Observed)
    requires Indexed(groups, index)
    ensures var g := |groups|;
            Indexed(groups + [[c]], if c.synSeen then List(index, c.synSeq, g)
              else index.(midstream := index.midstream + [g]))
  {
    var g := |groups|;
    var more := if c.synSeen then List(index, c.synSeq, g) else index.(midstream := index.midstream + [g]);
    forall s: nat, h: nat
      ensures h in Under(more, s) <==> h in Under(index, s) || (c.synSeen && s == c.synSeq && h == g)
    {
      assert c.synSeen && s == c.synSeq ==> Under(more, s) == Under(index, s) + [g];
    }
    assert !c.synSeen ==> g in more.midstream;
  }

  // ----- The algorithm -----

  /** The group at `g` is the first one listed that accepts the candidate. */
  ghost predicate IsFirst(groups: seq<Group>, order: seq<nat>, c: Observed, g: nat) {
    && g < |groups| && Accepts(groups[g], c)
    && exists i :: 0 <= i < |order| && order[i] == g
                   && forall j :: 0 <= j < i ==> order[j] < |groups| && !Accepts(groups[order[j]], c)
  }

  method FirstAccepting(groups: seq<Group>, order: seq<nat>, c: Observed) returns (matched: int)
    requires forall g: nat :: g in order ==> g < |groups|
    ensures matched >= 0 ==> matched < |groups| && matched in order && IsFirst(groups, order, c, matched)
    ensures matched < 0 ==> forall g: nat :: g in order ==> !Accepts(groups[g], c)
  {
    for i := 0 to |order|
      invariant forall j :: 0 <= j < i ==> order[j] < |groups| && !Accepts(groups[order[j]], c)
    {
      assert order[i] in order;
      var same := SameObservedConnection(c, groups[order[i]]);
      if same { return order[i]; }
    }
    matched := -1;
  }

  method FirstOfAll(groups: seq<Group>, c: Observed) returns (matched: int)
    ensures matched >= 0 ==> matched < |groups| && Accepts(groups[matched], c)
    ensures forall g :: 0 <= g < (if matched < 0 then |groups| else matched) ==> !Accepts(groups[g], c)
  {
    for i := 0 to |groups|
      invariant forall g :: 0 <= g < i ==> !Accepts(groups[g], c)
    {
      var same := SameObservedConnection(c, groups[i]);
      if same { return i; }
    }
    matched := -1;
  }

  /** Finds a group for a candidate through the index; a candidate with a SYN that
      joins a midstream group gets it listed under its number. */
  method FindGroup(groups: seq<Group>, index: Index, c: Observed) returns (matched: int, next: Index)
    requires Indexed(groups, index)
    ensures Indexed(groups, next)
    ensures matched >= 0 ==>
              matched < |groups| && Accepts(groups[matched], c) && (c.synSeen ==> matched in Under(next, c.synSeq))
    ensures matched >= 0 && !c.synSeen ==> forall g :: 0 <= g < matched ==> !Accepts(groups[g], c)
    ensures matched >= 0 && c.synSeen ==>
              || IsFirst(groups, Under(index, c.synSeq), c, matched)
              || (IsFirst(groups, index.midstream, c, matched)
                  && forall g: nat :: g in Under(index, c.synSeq) ==> !Accepts(groups[g], c))
    ensures matched < 0 ==> next == index && forall g :: 0 <= g < |groups| ==> !Accepts(groups[g], c)
  {
    next := index;
    if !c.synSeen {
      matched := FirstOfAll(groups, c);
      return;
    }
    matched := FirstAccepting(groups, Under(index, c.synSeq), c);
    if matched < 0 {
      matched := FirstAccepting(groups, index.midstream, c);
      if matched >= 0 {
        IndexList(groups, index, c.synSeq, matched);
        next := List(index, c.synSeq, matched);
      } else {
        forall g | 0 <= g < |groups| ensures !Accepts(groups[g], c) {
          if Accepts(groups[g], c) { IndexIsComplete(groups, index, c, g); }
        }
      }
    }
  }

  method Place(groups: seq<Group>, index: Index, c: Observed) returns (after: seq<Group>, next: Index)
    requires Indexed(groups, index)
    ensures Indexed(after, next) && Joins(groups, c, after)
  {
    var matched;
    matched, next := FindGroup(groups, index, c);
    if matched < 0 {
      IndexOpen(groups, index, c);
      after := groups + [[c]];
      next := if c.synSeen then List(index, c.synSeq, |groups|) else index.(midstream := index.midstream + [|groups|]);
    } else {
      IndexJoin(groups, next, c, matched);
      after := groups[matched := groups[matched] + [c]];
    }
  }

  /** A zero time sorts first. */
  function FirstKey(o: Observed): int { if o.first.Some? then o.first.value else 0 }

  /** Groups the candidates in the order they began. Every candidate ends up in exactly
      one group, members of a group fit each other, and one was opened only when no
      group there was accepted its candidate. */
  method GroupObservations(candidates: seq<Observed>)
    returns (groups: seq<Group>, ghost order: seq<Observed>, ghost trace: seq<seq<Group>>)
    ensures multiset(order) == multiset(candidates) && Sorting.Sorted(order, FirstKey)
    ensures Grew(order, trace) && groups == trace[|order|]
    ensures Contents(groups) == multiset(candidates) && AllCoherent(groups)
  {
    var sorted := Sorting.SortBy(candidates, FirstKey);
    order := sorted;
    groups := [];
    trace := [[]];
    var index := Index(map[], []);
    for k := 0 to |sorted|
      invariant Indexed(groups, index) && Grew(sorted[..k], trace) && groups == trace[k]
    {
      ghost var before := groups;
      groups, index := Place(groups, index, sorted[k]);
      GrewMore(sorted, k, trace, groups);
      trace := trace + [groups];
    }
    assert sorted[..|sorted|] == sorted;
    GroupingIsSound(sorted, trace, |sorted|);
  }

  /** Every group rejected the candidate that opened a later one. */
  lemma OpenedAlone(candidates: seq<Observed>, trace: seq<seq<Group>>, k: nat, g: nat)
    requires Grew(candidates, trace) && k < |candidates| && |trace[k + 1]| > |trace[k]| && g < |trace[k]|
    ensures trace[k + 1] == trace[k] + [[candidates[k]]] && !Accepts(trace[k][g], candidates[k])
  {
    assert Joins(trace[k], candidates[k], trace[k + 1]);
  }

  lemma GrewMore(candidates: seq<Observed>, k: nat, trace: seq<seq<Group>>, after: seq<Group>)
    requires k < |candidates| && Grew(candidates[..k], trace) && Joins(trace[k], candidates[k], after)
    ensures Grew(candidates[..k + 1], trace + [after])
  {
    var more := trace + [after];
    forall i | 0 <= i < k + 1 ensures Joins(more[i], candidates[..k + 1][i], more[i + 1]) {
      if i < k { assert Joins(trace[i], candidates[..k][i], trace[i + 1]); }
    }
  }
}

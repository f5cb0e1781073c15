/** The merged host view: each tick it reuses or creates snapshots for the merged
    connections, gives them IDs, records endings once, and emits changes. */
module HostView {
  import opened Changes
  import opened Endings
  import opened Prelude
  import MapSums
  import Rings

  const MAX_HISTORY := 5000

  // ----- Collecting a tick's connections -----

  /** One interface's flow, and whether its connection attempt failed. */
  datatype Observed = Observed(id: Observation, failed: bool)

  /** Observations of one connection, and what merging them yields. */
  datatype Group = Group(members: seq<Observed>, content: Data)

  predicate AnyFailed(members: seq<Observed>) { exists o :: o in members && o.failed }

  /** A merged connection has failed iff one of its observations has; no other end
      is known to an interface. */
  predicate Mergeable(g: Group) { g.content.end == if AnyFailed(g.members) then Failed else Ongoing }

  function IdsOf(members: seq<Observed>): (r: seq<Observation>)
    ensures |r| == |members|
  {
    seq(|members|, i requires 0 <= i < |members| => members[i].id)
  }

  /** The part of the new view that is under construction. */
  datatype Building = Building(
    ids: map<Observation, nat>, active: map<nat, Total>, shown: map<nat, Flow>, absorbed: set<nat>)

  function FlowsIn(log: seq<Remembered>): (r: seq<Flow>)
    ensures |r| == |log|
  {
    seq(|log|, i requires 0 <= i < |log| => log[i].flow)
  }

  function IdsIn(log: seq<Remembered>): (r: seq<nat>)
    ensures |r| == |log|
  {
    seq(|log|, i requires 0 <= i < |log| => log[i].id)
  }

  /** What each ID shows. */
  ghost function Showing(s: State): map<nat, Data> { map id | id in s.displayed :: Contents(s.heap, s.displayed[id]) }

  /** The change log is in order. Comparing keeps a proof that only passes the fact on
      from unfolding it, which costs a look at every log. */
  ghost predicate InOrder(b: Book, showing: map<nat, Data>, todo: set<nat>, parting: set<nat>, nextID: nat) {
    Orderly(b, showing, todo, parting, nextID) == true
  }

  lemma ObserveInOrder(b: Book, showing: map<nat, Data>, todo: set<nat>, parting: set<nat>, nextID: nat, id: nat,
                        flow: Flow, now: Moment)
    requires InOrder(b, showing, todo, parting, nextID) && id in todo && id in showing
    ensures InOrder(ObserveID(b, id, flow, showing[id], now), showing, todo - {id}, parting, nextID)
  {
    ObserveOrderly(b, showing, todo, parting, nextID, id, flow, now);
  }

  /** The same for the endings. */
  ghost predicate Healthy(s: State) { Sound(s) == true }

  /** What expired connections had: their bytes, their number, and the bytes of those
      with a listed name. */
  datatype Expired = Expired(rx: nat, tx: nat, flows: nat, listedRx: nat, listedTx: nat)

  function Rx(t: Total): nat { t.rx }

  function Tx(t: Total): nat { t.tx }

  function One(t: Total): nat { 1 }

  function ListedRx(t: Total): nat { if t.listed then t.rx else 0 }

  function ListedTx(t: Total): nat { if t.listed then t.tx else 0 }

  function Grown(e: Expired, t: Total): Expired {
    Expired(e.rx + t.rx, e.tx + t.tx, e.flows + 1, e.listedRx + ListedRx(t), e.listedTx + ListedTx(t))
  }

  function Only(active: map<nat, Total>, ids: set<nat>): map<nat, Total> {
    map id | id in active && id in ids :: active[id]
  }

  /** The expired totals grew by those of `ids`, each counted once. */
  ghost predicate Lapsed(before: Expired, after: Expired, active: map<nat, Total>, ids: set<nat>) {
    var gone := Only(active, ids);
    && after.rx == before.rx + MapSums.Sum(gone, Rx) && after.tx == before.tx + MapSums.Sum(gone, Tx)
    && after.flows == before.flows + MapSums.Sum(gone, One)
    && after.listedRx == before.listedRx + MapSums.Sum(gone, ListedRx)
    && after.listedTx == before.listedTx + MapSums.Sum(gone, ListedTx)
  }

  ghost predicate EndedBy(s: State, t: Tick, u: Tick, order: seq<nat>, ids: set<nat>,
                          before: Expired, after: Expired, now: Moment) {
    && (forall i :: 0 <= i < |order| ==> order[i] in s.displayed) && u == VanishAll(s, t, order, now)
    && Members(order) == ids && Lapsed(before, after, s.active, ids)
  }

  /** The tick in progress once the IDs in `order`, which are those in `ids`, have ended;
      not unfolded where it is only passed on. */
  ghost predicate Ended(s: State, t: Tick, u: Tick, order: seq<nat>, ids: set<nat>,
                        before: Expired, after: Expired, now: Moment) {
    EndedBy(s, t, u, order, ids, before, after, now) == true
  }

  lemma NothingLapsed(totals: Expired, active: map<nat, Total>)
    ensures Lapsed(totals, totals, active, {})
  {
    assert Only(active, {}) == map[];
  }

  lemma NothingEnded(s: State, t: Tick, totals: Expired, now: Moment)
    ensures Ended(s, t, t, [], Gone(s, t) - s.active.Keys, totals, totals, now)
  {
    NothingLapsed(totals, s.active);
    assert Gone(s, t) - s.active.Keys == {};
  }

  lemma LapseOne(before: Expired, now: Expired, active: map<nat, Total>, ids: set<nat>, id: nat)
    requires Lapsed(before, now, active, ids) && id in active && id !in ids
    ensures Lapsed(before, Grown(now, active[id]), active, ids + {id})
  {
    var gone := Only(active, ids);
    assert Only(active, ids + {id}) == gone[id := active[id]];
    MapSums.SumInsert(gone, Rx, id, active[id]);
    MapSums.SumInsert(gone, Tx, id, active[id]);
    MapSums.SumInsert(gone, One, id, active[id]);
    MapSums.SumInsert(gone, ListedRx, id, active[id]);
    MapSums.SumInsert(gone, ListedTx, id, active[id]);
  }

  lemma KnownIsPast(s: State, t: Tick, m: Merged)
    ensures var known := First(s.flowIDs, m.members);
            IdFor(s, t, m) == if known == 0 || known in t.active then t.nextID + 1 else known
  {
  }

  lemma PlaceParts(s: State, t: Tick, m: Merged, now: Moment, w: Shown)
    requires m.flow in t.heap && s.displayed.Values <= t.heap.Keys
    requires var id := IdFor(s, t, m);
             && (id in s.displayed ==> s.displayed[id] in t.heap)
             && w == Show(m.flow, t.heap[m.flow], Prior(s, id),
                t.heap[if id in s.displayed then s.displayed[id] else m.flow], now)
    ensures var id := IdFor(s, t, m);
            Place(s, t, m, now) == Tick(if id > t.nextID then id else t.nextID, Assign(t.ids, m.members, id),
              t.active[id := TotalOf(now, t.heap[m.flow])], t.shown[id := w.flow],
              t.heap[w.flow := w.data], Record(t.log, id, w),
              t.absorbed + Known(s.flowIDs, m.members))
  {
  }

  /** The IDs found to be gone are exactly those. */
  ghost predicate Finds(s: State, all: seq<Merged>, order: seq<nat>, now: Moment) {
    && (forall i :: 0 <= i < |order| ==> order[i] in s.displayed)
    && Members(order) == Gone(s, PlaceAll(s, Start(s), all, now))
  }

  /** After a tick the change log stands as it should before its changes are looked for. */
  lemma TickFollows(s: State, next: State, b: Book)
    requires Sound(s) && Sound(next) && s.log <= next.log && s.nextID <= next.nextID
    requires forall id :: id in next.displayed ==> id in s.displayed || s.nextID < id
    requires forall id: nat :: s.nextID < id <= next.nextID ==> id in next.displayed
    requires Orderly(b, Showing(s), {}, {}, s.nextID)
    ensures InOrder(b, Showing(next), next.displayed.Keys, s.displayed.Keys - next.displayed.Keys, next.nextID)
  {
    var before, after := Showing(s), Showing(next);
    forall id | id in after && id in before && before[id].end != Ongoing ensures after[id].end == before[id].end {
      EndsAreFinal(s, next, id);
    }
    assert before.Keys == s.displayed.Keys && after.Keys == next.displayed.Keys;
    NextOrderly(b, before, s.nextID, after, next.nextID);
  }

  lemma TickSettles(s: State, all: seq<Merged>, order: seq<nat>, now: Moment, b: Book)
    requires Sound(s) && AllReady(s, Start(s), all) && Finds(s, all, order, now)
             && Orderly(b, Showing(s), {}, {}, s.nextID)
    ensures var next := Next(s, all, order, now);
            && Sound(next) && next.displayed.Values <= next.heap.Keys
            && InOrder(b, Showing(next), next.displayed.Keys, s.displayed.Keys - next.displayed.Keys, next.nextID)
  {
    TickKeeps(s, all, order, now);
    TickFollows(s, Next(s, all, order, now), b);
  }

  // ----- Collecting -----

  function Used(all: seq<Merged>): set<Flow> { set m | m in all :: m.flow }

  /** A group left its ID's ongoing snapshot to nobody only if it had failed. */
  ghost predicate Taken(s: State, all: seq<Merged>) {
    forall m :: m in all ==> TakenAt(s, all, m)
  }

  ghost predicate Gathered(s: State, all: seq<Merged>) { Sound(s) && AllReady(s, Start(s), all) && Taken(s, all) }

  /** Only the contents of one snapshot changed, and not that of an ending. */
  ghost predicate Touches(s: State, r: State, f: Flow) {
    && r == s.(heap := r.heap) && f in r.heap && r.heap == s.heap[f := r.heap[f]]
    && (f in s.heap ==> s.heap[f].end == r.heap[f].end == Ongoing)
  }

  lemma SoundHeap(s: State)
    requires Sound(s)
    ensures s.displayed.Values <= s.heap.Keys && Flows(s.log) <= s.heap.Keys && 0 !in s.displayed
  {
  }

  lemma TouchSound(s: State, r: State, f: Flow)
    requires Sound(s) && Touches(s, r, f)
    ensures Sound(r)
  {
    SoundHeap(s);
    assert Frozen(r.log, r.heap);
    assert Truthful(r.displayed, r.heap, r.log);
    assert Apart(r.displayed, r.heap);
  }

  lemma TouchReady(s: State, r: State, f: Flow, all: seq<Merged>)
    requires Sound(s) && AllReady(s, Start(s), all) && Touches(s, r, f) && f !in Used(all)
    ensures AllReady(r, Start(r), all)
  {
    forall i | 0 <= i < |all| ensures Ready(r, Start(r), all[i]) && all[i].flow != f {
      assert all[i] in all && Ready(s, Start(s), all[i]);
    }
    forall i, j | 0 <= i < j < |all| ensures all[i].flow != all[j].flow && Ordered(r, Start(r), all[i], all[j]) {
      assert all[i] in all && all[j] in all && Ordered(s, Start(s), all[i], all[j]);
    }
  }

  lemma AppendReady(s: State, all: seq<Merged>, m: Merged)
    requires AllReady(s, Start(s), all) && Ready(s, Start(s), m) && m.flow !in Used(all)
    requires forall i :: 0 <= i < |all| ==> Ordered(s, Start(s), all[i], m)
    ensures AllReady(s, Start(s), all + [m])
  {
    var more := all + [m];
    forall i | 0 <= i < |more| ensures Ready(s, Start(s), more[i]) {
    }
    forall i, j | 0 <= i < j < |more| ensures more[i].flow != more[j].flow && Ordered(s, Start(s), more[i], more[j]) {
      assert more[i] in all;
    }
  }

  /** A new snapshot for a group that could not have its ID's. */
  lemma GatherNew(s: State, all: seq<Merged>, m: Merged, g: Group)
    requires Gathered(s, all) && m.flow !in s.heap && Mergeable(g) && m.members == IdsOf(g.members)
    requires var id := First(s.flowIDs, m.members);
             id in s.displayed && Contents(s.heap, s.displayed[id]).end == Ongoing && s.displayed[id] !in Used(all)
             ==> AnyFailed(g.members)
    ensures var r := s.(heap := s.heap[m.flow := g.content]); Gathered(r, all + [m]) && Touches(s, r, m.flow)
  {
    var r := s.(heap := s.heap[m.flow := g.content]);
    SoundHeap(s);
    TouchSound(s, r, m.flow);
    forall n | n in all ensures n.flow in s.heap {
      var i :| 0 <= i < |all| && all[i] == n;
      assert Ready(s, Start(s), all[i]);
    }
    TouchReady(s, r, m.flow, all);
    assert m.flow !in r.displayed.Values;
    assert Alone(r, Start(r), m);
    forall i | 0 <= i < |all| ensures Ordered(r, Start(r), all[i], m) {
      assert First(r.flowIDs, m.members) in r.displayed
             ==> r.displayed[First(r.flowIDs, m.members)] in r.displayed.Values;
    }
    AppendReady(r, all, m);
    assert Used(all + [m]) == Used(all) + {m.flow};
    forall n | n in all + [m] ensures TakenAt(r, all + [m], n) {
      if n in all { assert TakenAt(s, all, n); }
    }
  }

  ghost predicate TakenAt(s: State, all: seq<Merged>, m: Merged) {
    var id := First(s.flowIDs, m.members);
    id in s.displayed && Contents(s.heap, s.displayed[id]).end == Ongoing && s.displayed[id] !in Used(all) ==>
      Contents(s.heap, m.flow).end != Ongoing
  }

  /** The ongoing snapshot of the group's own ID. */
  lemma GatherInPlace(s: State, all: seq<Merged>, m: Merged, g: Group)
    requires Gathered(s, all) && Mergeable(g) && m.members == IdsOf(g.members) && !AnyFailed(g.members)
    requires var id := First(s.flowIDs, m.members);
             id in s.displayed && m.flow == s.displayed[id] && Contents(s.heap, m.flow).end == Ongoing
               && m.flow !in Used(all)
    ensures var r := s.(heap := s.heap[m.flow := g.content]); Gathered(r, all + [m]) && Touches(s, r, m.flow)
  {
    var r := s.(heap := s.heap[m.flow := g.content]);
    SoundHeap(s);
    assert m.flow in s.displayed.Values;
    TouchSound(s, r, m.flow);
    TouchReady(s, r, m.flow, all);
    assert InPlace(r, Start(r), m);
    forall i | 0 <= i < |all| ensures Ordered(r, Start(r), all[i], m) {
      assert all[i] in all && TakenAt(s, all, all[i]);
      assert all[i].flow in Used(all);
    }
    AppendReady(r, all, m);
    assert Used(all + [m]) == Used(all) + {m.flow};
    forall n | n in all + [m] ensures TakenAt(r, all + [m], n) {
      if n in all { assert TakenAt(s, all, n); }
    }
  }

  /** Only ongoing snapshots took new contents, and they stay ongoing. */
  ghost predicate Refreshed(s: State, r: State) {
    && r == s.(heap := r.heap) && s.heap.Keys <= r.heap.Keys
    && forall f :: f in s.heap ==> if s.heap[f].end == Ongoing then r.heap[f].end == Ongoing else r.heap[f] == s.heap[f]
  }

  lemma RefreshedMore(s: State, r: State, u: State, f: Flow)
    requires Refreshed(s, r) && Touches(r, u, f)
    ensures Refreshed(s, u)
  {
  }

  /** Every group became one snapshot that holds what merging it yields. */
  ghost predicate Merges(s: State, groups: seq<Group>, all: seq<Merged>) {
    |all| == |groups| && forall i :: 0 <= i < |all| ==>
      all[i].members == IdsOf(groups[i].members) && all[i].flow in s.heap && s.heap[all[i].flow] == groups[i].content
  }

  lemma MergesMore(s: State, r: State, groups: seq<Group>, k: nat, all: seq<Merged>, m: Merged)
    requires k < |groups| && Merges(s, groups[..k], all) && Touches(s, r, m.flow) && Gathered(r, all + [m])
    requires m.members == IdsOf(groups[k].members) && r.heap[m.flow] == groups[k].content
    ensures Merges(r, groups[..k + 1], all + [m])
  {
    var more := all + [m];
    forall i | 0 <= i < |more|
      ensures more[i].members == IdsOf(groups[i].members) && more[i].flow in r.heap
              && r.heap[more[i].flow] == groups[i].content
    {
      if i < k {
        assert groups[..k][i] == groups[i];
        assert more[i].flow != more[k].flow;
      }
    }
  }

  lemma RefreshedOrderly(s: State, r: State, b: Book)
    requires Sound(s) && Refreshed(s, r) && Orderly(b, Showing(s), {}, {}, s.nextID)
    ensures Orderly(b, Showing(r), {}, {}, r.nextID)
  {
    SoundHeap(s);
    forall id | id in s.displayed ensures Showing(r)[id].end == Showing(s)[id].end {
      assert s.displayed[id] in s.displayed.Values;
    }
    forall id | id in Showing(r) ensures ProperAt(b, id) && Agrees(TrackOf(b, id), Showing(r)[id]) {
      assert id in Showing(s);
    }
    assert Showing(r).Keys == Showing(s).Keys;
  }

  /** The IDs that some observation of this tick had. */
  function Continued(ids: map<Observation, nat>, groups: seq<Group>): set<nat> {
    set g, o | g in groups && o in IdsOf(g.members) && o in ids && ids[o] != 0 :: ids[o]
  }

  /** What every tick obeys: recorded endings stay, with their snapshots; an ID that is
      shown was shown before or is new; one that is gone has its ending recorded or
      goes on under another ID; and an end that was shown does not change. */
  ghost predicate Lawful(s: State, next: State, absorbed: set<nat>) {
    && s.log <= next.log && s.nextID <= next.nextID
    && (forall e :: e in s.log ==> e.flow in next.heap && next.heap[e.flow] == e.data)
    && (forall id :: id in next.displayed ==> id in s.displayed || s.nextID < id)
    && (forall id :: id in s.displayed && id !in next.displayed && id !in absorbed ==> id in Ids(next.log))
    && (forall id :: id in s.displayed && id in next.displayed && Contents(s.heap, s.displayed[id]).end != Ongoing ==>
          Contents(next.heap, next.displayed[id]).end == Contents(s.heap, s.displayed[id]).end)
  }

  function AllKnown(ids: map<Observation, nat>, all: seq<Merged>): set<nat> {
    set m, o | m in all && o in m.members && o in ids && ids[o] != 0 :: ids[o]
  }

  lemma AllKnownMore(ids: map<Observation, nat>, all: seq<Merged>)
    requires all != []
    ensures AllKnown(ids, all) == AllKnown(ids, all[..|all| - 1]) + Known(ids, all[|all| - 1].members)
  {
    var k := |all| - 1;
    assert all == all[..k] + [all[k]];
  }

  lemma {:induction false} PlacedAbsorbs(s: State, t: Tick, all: seq<Merged>, now: Moment)
    ensures PlaceAll(s, t, all, now).absorbed == t.absorbed + AllKnown(s.flowIDs, all)
    decreases |all|
  {
    if all != [] {
      PlacedAbsorbs(s, t, all[..|all| - 1], now);
      AllKnownMore(s.flowIDs, all);
    }
  }

  lemma SameKnown(s: State, groups: seq<Group>, all: seq<Merged>)
    requires Merges(s, groups, all)
    ensures AllKnown(s.flowIDs, all) == Continued(s.flowIDs, groups)
  {
    forall m, o | m in all && o in m.members && o in s.flowIDs && s.flowIDs[o] != 0
      ensures s.flowIDs[o] in Continued(s.flowIDs, groups)
    {
      var i :| 0 <= i < |all| && all[i] == m;
      assert groups[i] in groups && o in IdsOf(groups[i].members);
    }
    forall g, o | g in groups && o in IdsOf(g.members) && o in s.flowIDs && s.flowIDs[o] != 0
      ensures s.flowIDs[o] in AllKnown(s.flowIDs, all)
    {
      var i :| 0 <= i < |groups| && groups[i] == g;
      assert all[i] in all && o in all[i].members;
    }
  }

  lemma TickLaw(s: State, mid: State, groups: seq<Group>, all: seq<Merged>, order: seq<nat>, now: Moment)
    requires Sound(s) && Refreshed(s, mid) && Sound(mid) && AllReady(mid, Start(mid), all) && Merges(mid, groups, all)
    requires Finds(mid, all, order, now)
    ensures Lawful(s, Next(mid, all, order, now), Continued(s.flowIDs, groups))
  {
    TickKeeps(mid, all, order, now);
    SameKnown(mid, groups, all);
    GoneLaw(mid, all, order, now);
    LawAcross(s, mid, Next(mid, all, order, now), Continued(s.flowIDs, groups));
  }

  /** It moves: the first tick of a view may record a connection with a name that its
      evidence does not say any more at the next. */
  lemma RecordedNameMoves(f: Flow, d: Data, x: Evidence, first: Moment, second: Moment)
    requires d.end == Ongoing && Due(d, first) && d.evidence == Some(x)
    requires first.says(x).name != second.says(x).name
    ensures var s, all := State(0, map[], map[], map[], map[f := d], []), [Merged(f, [1])];
            Inputs(s, all, [], first) &&
            var next := Next(s, all, [], first);
            && next.log == [Remembered(1, f, next.heap[f])] && next.displayed == map[1 := f]
            && KeyOf(first, next.heap[f]) != KeyOf(second, next.heap[f])
  {
    var s, all := State(0, map[], map[], map[], map[f := d], []), [Merged(f, [1])];
    assert all[..0] == [] && PlaceAll(s, Start(s), [], first) == Start(s);
    var placed := PlaceAll(s, Start(s), all, first);
    assert placed == Place(s, Start(s), all[0], first);
    assert First(s.flowIDs, all[0].members) == 0;
    assert ShownFor(s, Start(s), all[0], first) == Shown(f, d.(end := EndReason(d, first)), true);
    assert Sound(s);
  }

  /** Some observation of this tick was known by the ID. */
  ghost predicate Carried(s: State, all: seq<Merged>, id: nat) {
    exists m, o :: m in all && o in m.members && o in s.flowIDs && s.flowIDs[o] == id
  }

  /** The IDs that end with a tick are those that are shown no more although no connection
      carries them on; no other ID that is not shown has an ending recorded. */
  lemma WhoIsGone(s: State, all: seq<Merged>, order: seq<nat>, now: Moment, id: nat)
    requires Inputs(s, all, order, now)
    ensures var next := Next(s, all, order, now);
            && (id in Members(order) <==> id in s.displayed && id !in next.displayed && !Carried(s, all, id))
            && (id in Ids(next.log) && id !in next.displayed ==> id in Ids(s.log) || id in Members(order))
  {
    TickKeeps(s, all, order, now);
    PlacedCounts(s, all, now);
    PlacedAbsorbs(s, Start(s), all, now);
  }

  lemma WhyTold(s: State, all: seq<Merged>, order: seq<nat>, now: Moment)
    ensures Sound(s) && AllReady(s, Start(s), all) && Finds(s, all, order, now) ==>
              TellsWhy(s, all, order, now, Next(s, all, order, now))
  {
    if Sound(s) && AllReady(s, Start(s), all) && Finds(s, all, order, now) {
      EndingsTellWhy(s, all, order, now);
    }
  }

  lemma GoneLaw(s: State, all: seq<Merged>, order: seq<nat>, now: Moment)
    requires Inputs(s, all, order, now)
    ensures var next := Next(s, all, order, now);
            s.displayed.Keys - next.displayed.Keys - AllKnown(s.flowIDs, all) <= Ids(next.log)
  {
    var t, next := PlaceAll(s, Start(s), all, now), Next(s, all, order, now);
    TickKeeps(s, all, order, now);
    PlacedAbsorbs(s, Start(s), all, now);
    PlacedCounts(s, all, now);
    assert s.displayed.Keys - next.displayed.Keys - AllKnown(s.flowIDs, all) <= Gone(s, t);
  }

  lemma PlacedCounts(s: State, all: seq<Merged>, now: Moment)
    requires Sound(s) && AllReady(s, Start(s), all)
    ensures var t := PlaceAll(s, Start(s), all, now); t.active.Keys == t.shown.Keys
  {
    StartPlacing(s);
    assert OnTrack(s, Start(s), all);
    PlaceSome(s, Start(s), all, |all|, now);
    assert all[..|all|] == all;
  }

  lemma LawAcross(s: State, mid: State, next: State, absorbed: set<nat>)
    requires Sound(s) && Refreshed(s, mid) && Sound(mid) && Sound(next) && mid.log <= next.log
             && mid.nextID <= next.nextID
    requires forall id :: id in next.displayed ==> id in mid.displayed || mid.nextID < id
    requires mid.displayed.Keys - next.displayed.Keys - absorbed <= Ids(next.log)
    ensures Lawful(s, next, absorbed)
  {
    LogLaw(s, next);
    forall id | id in s.displayed && id in next.displayed && Contents(s.heap, s.displayed[id]).end != Ongoing
      ensures Contents(next.heap, next.displayed[id]).end == Contents(s.heap, s.displayed[id]).end
    {
      EndLaw(s, mid, next, id);
    }
    forall id | id in s.displayed && id !in next.displayed && id !in absorbed ensures id in Ids(next.log) {
      assert id in mid.displayed.Keys - next.displayed.Keys - absorbed;
    }
  }

  lemma LogLaw(s: State, next: State)
    requires s.log <= next.log && Frozen(next.log, next.heap)
    ensures forall e :: e in s.log ==> e.flow in next.heap && next.heap[e.flow] == e.data
  {
    forall e | e in s.log ensures e.flow in next.heap && next.heap[e.flow] == e.data {
      var i :| 0 <= i < |s.log| && s.log[i] == e;
      assert next.log[i] == e && e in next.log;
    }
  }

  lemma EndLaw(s: State, mid: State, next: State, id: nat)
    requires Sound(s) && Refreshed(s, mid) && Sound(mid) && Sound(next) && mid.log <= next.log
    requires id in s.displayed && id in next.displayed && Contents(s.heap, s.displayed[id]).end != Ongoing
    ensures Contents(next.heap, next.displayed[id]).end == Contents(s.heap, s.displayed[id]).end
  {
    assert s.displayed[id] in s.heap && next.displayed[id] in next.heap;
    assert mid.heap[mid.displayed[id]] == s.heap[s.displayed[id]];
    EndsAreFinal(mid, next, id);
  }

  lemma SoundNumbers(s: State, all: seq<Merged>)
    requires Sound(s) && AllReady(s, Start(s), all)
    ensures s.displayed.Values <= s.heap.Keys
    ensures forall i :: 0 <= i < |all| ==> all[i].flow in s.heap && First(s.flowIDs, all[i].members) <= s.nextID
  {
    forall i | 0 <= i < |all| ensures all[i].flow in s.heap && First(s.flowIDs, all[i].members) <= s.nextID {
      FirstIsDisplayed(s, all[i].members);
      assert Ready(s, Start(s), all[i]);
    }
  }

  lemma EndedMore(s: State, t: Tick, u: Tick, order: seq<nat>, ids: set<nat>, before: Expired,
                  after: Expired, now: Moment, id: nat)
    requires Ended(s, t, u, order, ids, before, after, now) && id in s.active && id in s.displayed && id !in ids
    ensures Ended(s, t, Vanish(s, u, id, now), order + [id], ids + {id}, before, Grown(after, s.active[id]), now)
  {
    var more := order + [id];
    assert more[..|order|] == order;
    MembersMore(more);
    LapseOne(before, after, s.active, ids, id);
  }

  lemma {:induction false} SameVanish(s: State, r: State, t: Tick, order: seq<nat>, now: Moment)
    requires s.displayed == r.displayed && forall i :: 0 <= i < |order| ==> order[i] in s.displayed
    ensures VanishAll(s, t, order, now) == VanishAll(r, t, order, now)
    decreases |order|
  {
    if order != [] { SameVanish(s, r, t, order[..|order| - 1], now); }
  }

  lemma SamePending<V>(m: map<nat, V>, id: nat)
    ensures Put(m, id, Get(m, id)) == m
  {
  }

  /** A step depends on the last view only through its IDs and what it displays. */
  lemma SameStep(s: State, r: State, t: Tick, m: Merged, now: Moment)
    requires s.flowIDs == r.flowIDs && s.displayed == r.displayed
    ensures Place(s, t, m, now) == Place(r, t, m, now)
  {
  }

  class HostView {
    var nextID: nat
    var flowIDs: map<Observation, nat>
    var active: map<nat, Total>
    var displayed: map<nat, Flow>
    var history: seq<Flow>
    var historyIDs: seq<nat>
    var historyNext: nat
    var recentChanges: seq<Change>
    var recentNext: nat
    var changeKeys: map<nat, ChangeKey>
    var firstObserved: map<nat, int>
    var pendingNames: map<nat, PendingName>
    var expired: Expired
    ghost var heap: Heap
    ghost var log: seq<Remembered>
    ghost var emitted: seq<Change>

    ghost function View(): State
      reads this
    {
      State(nextID, flowIDs, active, displayed, heap, log)
    }

    ghost function BookWith(changes: seq<Change>): Book
      reads this
    {
      Book(changeKeys, firstObserved, pendingNames, emitted + changes)
    }

    /** The heap is what the snapshots hold. */
    ghost predicate Real()
      reads this, heap.Keys
    {
      forall f :: f in heap ==> f.data == heap[f]
    }

    /** The history rings hold the last 5000 recorded endings. */
    ghost predicate HistoryHolds()
      reads this
    {
      && Rings.Holds(history, historyNext, FlowsIn(log), 5000)
      && Rings.Holds(historyIDs, historyNext, IdsIn(log), 5000)
    }

    ghost predicate ChangesHold()
      reads this
    {
      Rings.Holds(recentChanges, recentNext, emitted, 5000)
    }

    ghost predicate Valid()
      reads this, heap.Keys
    {
      && Real() && HistoryHolds() && ChangesHold() && Sound(View())
      && Orderly(BookWith([]), Showing(View()), {}, {}, nextID)
    }

    constructor ()
      ensures Valid() && displayed == map[] && log == [] && emitted == []
    {
      nextID, flowIDs, active, displayed := 0, map[], map[], map[];
      history, historyIDs, historyNext, recentChanges, recentNext := [], [], 0, [], 0;
      changeKeys, firstObserved, pendingNames := map[], map[], map[];
      expired := Expired(0, 0, 0, 0, 0);
      heap, log, emitted := map[], [], [];
    }

    // ----- Recording -----

    method Remember(id: nat, f: Flow)
      requires HistoryHolds()
      modifies this`history, this`historyIDs, this`historyNext, this`log
      ensures HistoryHolds() && log == old(log) + [Remembered(id, f, f.data)]
    {
      Rings.PushHolds(history, historyNext, FlowsIn(log), f, MAX_HISTORY);
      Rings.PushHolds(historyIDs, historyNext, IdsIn(log), id, MAX_HISTORY);
      if |history| < MAX_HISTORY {
        history := history + [f];
        historyIDs := historyIDs + [id];
      } else {
        history := history[historyNext := f];
        historyIDs := historyIDs[historyNext := id];
        historyNext := (historyNext + 1) % MAX_HISTORY;
      }
      log := log + [Remembered(id, f, f.data)];
      assert FlowsIn(log) == FlowsIn(old(log)) + [f];
      assert IdsIn(log) == IdsIn(old(log)) + [id];
    }

    method SetData(f: Flow, d: Data)
      requires Real() && f in heap
      modifies f, this`heap
      ensures Real() && heap == old(heap)[f := d]
    {
      f.data := d;
      heap := heap[f := d];
    }

    // ----- One connection -----

    method FirstKnown(members: seq<Observation>, before: set<nat>) returns (id: nat, absorbed: set<nat>)
      ensures id == First(flowIDs, members) && absorbed == before + Known(flowIDs, members)
    {
      id, absorbed := 0, before;
      for i := 0 to |members|
        invariant First(flowIDs, members) == if id != 0 then id else First(flowIDs, members[i..])
        invariant absorbed == before + Known(flowIDs, members[..i])
      {
        var o := members[i];
        assert members[..i + 1] == members[..i] + [o];
        if o in flowIDs && flowIDs[o] != 0 {
          absorbed := absorbed + {flowIDs[o]};
          if id == 0 { id := flowIDs[o]; }
        }
      }
      assert members[..|members|] == members;
    }

    static method AssignAll(before: map<Observation, nat>, members: seq<Observation>, id: nat)
      returns (ids: map<Observation, nat>)
      ensures ids == Assign(before, members, id)
    {
      ids := before;
      for i := 0 to |members|
        invariant ids == Assign(before, members[..i], id)
      {
        assert members[..i + 1] == members[..i] + [members[i]];
        ids := ids[members[i] := id];
      }
      assert members[..|members|] == members;
    }

    /** Chooses the snapshot an ID shows, fills it, and records an ending. */
    method ShowOne(id: nat, merged: Flow, now: Moment) returns (shown: Flow)
      requires Real() && HistoryHolds() && merged in heap && (id in displayed ==> displayed[id] in heap)
      modifies this`history, this`historyIDs, this`historyNext, this`log, this`heap, heap.Keys
      ensures Real() && HistoryHolds()
      ensures var w := Show(merged, old(heap)[merged], Prior(old(View()), id),
                            old(heap)[if id in displayed then displayed[id] else merged], now);
              shown == w.flow && heap == old(heap)[w.flow := w.data] && log == Record(old(log), id, w)
    {
      shown := merged;
      var wasEnded := false;
      if id in displayed {
        var o := displayed[id];
        wasEnded := o.data.end != Ongoing;
        if wasEnded {
          SetData(merged, merged.data.(end := o.data.end));
        } else {
          shown := o;
          SetData(o, merged.data);
        }
      }
      if shown.data.end != Ongoing && !wasEnded {
        Remember(id, shown);
      } else if shown.data.end == Ongoing && shown.data.closed && now.at - shown.data.last >= LATE_EVENT_WINDOW {
        SetData(shown, shown.data.(end := EndReason(shown.data, now)));
        Remember(id, shown);
      }
    }

    ghost function TickOf(b: Building): Tick
      reads this
    {
      Tick(nextID, b.ids, b.active, b.shown, heap, log, b.absorbed)
    }

    /** The connection's first known ID, or a new one. */
    method ChooseID(b: Building, members: seq<Observation>, ghost m: Merged) returns (id: nat, absorbed: set<nat>)
      requires m.members == members && First(flowIDs, members) <= nextID
      modifies this`nextID
      ensures id == IdFor(old(View()), old(TickOf(b)), m) && nextID == if id > old(nextID) then id else old(nextID)
      ensures absorbed == b.absorbed + Known(flowIDs, members)
    {
      id, absorbed := FirstKnown(members, b.absorbed);
      KnownIsPast(View(), TickOf(b), m);
      if id == 0 || id in b.active {
        nextID := nextID + 1;
        id := nextID;
      }
    }

    method PlaceOne(b: Building, m: Merged, now: Moment) returns (r: Building)
      requires Real() && HistoryHolds() && m.flow in heap && displayed.Values <= heap.Keys
      requires First(flowIDs, m.members) <= nextID
      modifies this`nextID, this`history, this`historyIDs, this`historyNext, this`log, this`heap, heap.Keys
      ensures Real() && HistoryHolds() && heap.Keys == old(heap).Keys
      ensures TickOf(r) == Place(old(View()), old(TickOf(b)), m, now) && nextID >= old(nextID)
    {
      var total := Total(m.flow.data.rx, m.flow.data.tx, Heard(now, m.flow.data).listed);
      var id, absorbed := ChooseID(b, m.members, m);
      var ids := AssignAll(b.ids, m.members, id);
      assert id in displayed ==> displayed[id] in displayed.Values;
      ghost var w := Show(m.flow, heap[m.flow], Prior(View(), id),
        heap[if id in displayed then displayed[id] else m.flow], now);
      PlaceParts(old(View()), old(TickOf(b)), m, now, w);
      var shown := ShowOne(id, m.flow, now);
      r := Building(ids, b.active[id := total], b.shown[id := shown], absorbed);
    }

    method PlaceEvery(all: seq<Merged>, now: Moment) returns (b: Building)
      requires Real() && HistoryHolds() && displayed.Values <= heap.Keys
      requires forall i :: 0 <= i < |all| ==> all[i].flow in heap && First(flowIDs, all[i].members) <= nextID
      modifies this`nextID, this`history, this`historyIDs, this`historyNext, this`log, this`heap, heap.Keys
      ensures Real() && HistoryHolds() && heap.Keys == old(heap).Keys
      ensures TickOf(b) == PlaceAll(old(View()), Start(old(View())), all, now)
    {
      b := Building(map[], map[], map[], {});
      for k := 0 to |all|
        invariant Real() && HistoryHolds() && heap.Keys == old(heap).Keys && nextID >= old(nextID)
        invariant TickOf(b) == PlaceAll(old(View()), Start(old(View())), all[..k], now)
      {
        SameStep(old(View()), View(), TickOf(b), all[k], now);
        assert all[..k + 1][..k] == all[..k];
        b := PlaceOne(b, all[k], now);
      }
      assert all[..|all|] == all;
    }

    // ----- Endings of what is gone -----

    method VanishOne(id: nat, now: Moment, ghost b: Building, ghost s: State)
      requires s.displayed == displayed && Real() && HistoryHolds() && id in displayed && displayed[id] in heap
      modifies this`history, this`historyIDs, this`historyNext, this`log, this`heap, heap.Keys
      ensures Real() && HistoryHolds() && heap.Keys == old(heap).Keys
      ensures TickOf(b) == Vanish(s, old(TickOf(b)), id, now)
    {
      var shown := displayed[id];
      if shown.data.end == Ongoing {
        SetData(shown, shown.data.(end := EndReason(shown.data, now)));
        Remember(id, shown);
      }
    }

    /** Ends every ID that is neither shown nor taken over, in any order, and keeps its
        totals in the expired ones. */
    method VanishEvery(b: Building, now: Moment) returns (ghost order: seq<nat>)
      requires Real() && HistoryHolds() && displayed.Values <= heap.Keys && active.Keys == displayed.Keys
      modifies this`history, this`historyIDs, this`historyNext, this`log, this`heap, heap.Keys
      modifies this`expired
      ensures Real() && HistoryHolds() && heap.Keys == old(heap).Keys
      ensures Ended(old(View()), old(TickOf(b)), TickOf(b), order, Gone(old(View()), old(TickOf(b))), old(expired),
              expired, now)
    {
      order := [];
      var todo := active.Keys;
      ghost var s, t, totals := View(), TickOf(b), expired;
      NothingEnded(s, t, totals, now);
      while todo != {}
        invariant Real() && HistoryHolds() && heap.Keys == old(heap).Keys && todo <= active.Keys
        invariant Ended(s, t, TickOf(b), order, Gone(s, t) - todo, totals, expired, now)
        decreases |todo|
      {
        ghost var some := Member(todo);
        var id :| id in todo;
        order := LookAt(id, now, b, s, t, order, todo, totals);
        todo := todo - {id};
      }
      assert Gone(s, t) - todo == Gone(s, t);
    }

    method LookAt(id: nat, now: Moment, b: Building, ghost s: State, ghost t: Tick, ghost before: seq<nat>,
                  ghost todo: set<nat>, ghost totals: Expired)
      returns (ghost order: seq<nat>)
      requires Real() && HistoryHolds() && displayed.Values <= heap.Keys && displayed == s.displayed
               && active == s.active
      requires b.active == t.active && b.absorbed == t.absorbed && id in todo && id in active && id in displayed
      requires Ended(s, t, TickOf(b), before, Gone(s, t) - todo, totals, expired, now)
      modifies this`history, this`historyIDs, this`historyNext, this`log, this`heap, heap.Keys
      modifies this`expired
      ensures Real() && HistoryHolds() && heap.Keys == old(heap).Keys
      ensures Ended(s, t, TickOf(b), order, Gone(s, t) - (todo - {id}), totals, expired, now)
    {
      ghost var done := Gone(s, t) - todo;
      if id in b.active || id in b.absorbed {
        order := before;
        assert Gone(s, t) - (todo - {id}) == done;
      } else {
        order := EndOne(id, now, b, s, t, before, done, totals);
        assert Gone(s, t) - (todo - {id}) == done + {id};
      }
    }

    method EndOne(id: nat, now: Moment, b: Building, ghost s: State, ghost t: Tick, ghost before: seq<nat>,
                  ghost done: set<nat>, ghost totals: Expired)
      returns (ghost order: seq<nat>)
      requires Real() && HistoryHolds() && displayed.Values <= heap.Keys && displayed == s.displayed
               && active == s.active
      requires id in active && id in displayed && id !in done
               && Ended(s, t, TickOf(b), before, done, totals, expired, now)
      modifies this`history, this`historyIDs, this`historyNext, this`log, this`heap, heap.Keys
      modifies this`expired
      ensures Real() && HistoryHolds() && heap.Keys == old(heap).Keys
      ensures Ended(s, t, TickOf(b), order, done + {id}, totals, expired, now)
    {
      ghost var u, was := TickOf(b), expired;
      order := before + [id];
      EndedMore(s, t, u, before, done, totals, was, now, id);
      expired := Grown(expired, active[id]);
      assert displayed[id] in displayed.Values && TickOf(b) == u;
      VanishOne(id, now, b, s);
      assert TickOf(b) == Vanish(s, u, id, now);
    }

    // ----- Changes -----

    /** Appends a change; the log of all changes will follow. */
    method Append(changes: seq<Change>, id: nat, f: Flow, fields: seq<Field>, now: int) returns (r: seq<Change>)
      ensures emitted + r == Emit(emitted + changes, id, f, fields, now)
    {
      if |fields| > 0 {
        r := changes + [Change(id, f, fields, now)];
        assert emitted + r == (emitted + changes) + [Change(id, f, fields, now)];
      } else {
        r := changes;
      }
    }

    /** An ID seen for the first time waits until it has settled or ended. */
    method IntroduceOne(id: nat, f: Flow, now: Moment, changes: seq<Change>) returns (r: seq<Change>)
      requires id !in changeKeys
      modifies this`changeKeys, this`firstObserved
      ensures BookWith(r) == ObserveID(old(BookWith(changes)), id, f, f.data, now)
    {
      var seen := now.at;
      if id in firstObserved { seen := firstObserved[id]; }
      ghost var step := Observe(TrackOf(BookWith(changes), id), f.data, now);
      if now.at - seen < LATE_EVENT_WINDOW && f.data.end == Ongoing {
        firstObserved := firstObserved[id := seen];
        r := changes;
        assert changeKeys - {id} == changeKeys;
      } else {
        var fields := [New];
        if f.data.end != Ongoing { fields := fields + [EndField]; }
        assert fields == step.fields;
        r := Append(changes, id, f, fields, now.at);
        firstObserved := firstObserved - {id};
        changeKeys := changeKeys[id := KeyOf(now, f.data)];
      }
      SamePending(pendingNames, id);
    }

    /** An ID announced before: what differs from the last announcement. */
    method CompareOne(id: nat, f: Flow, now: Moment, changes: seq<Change>) returns (r: seq<Change>)
      requires id in changeKeys
      modifies this`changeKeys, this`pendingNames
      ensures BookWith(r) == ObserveID(old(BookWith(changes)), id, f, f.data, now)
    {
      var key, kept := KeyOf(now, f.data), changeKeys[id];
      var named := SettleOne(id, key.signature.name, now.at);
      var fields := Compared(kept, key, named);
      r := Append(changes, id, f, fields, now.at);
      var settled := if named then key.signature.name else kept.signature.name;
      changeKeys := changeKeys[id := ChangeKey(key.signature.(name := settled), key.end)];
      SamePending(firstObserved, id);
    }

    static method Compared(kept: ChangeKey, key: ChangeKey, named: bool) returns (fields: seq<Field>)
      ensures fields == Differences(kept, key, named)
    {
      fields := [];
      if key.signature.state != kept.signature.state {
        fields := fields + [StateField];
      }
      if key.signature.process != kept.signature.process {
        fields := fields + [Process];
      }
      if key.end != kept.end {
        fields := fields + [EndField];
      }
      if key.signature.drops != kept.signature.drops {
        fields := fields + [Drops];
      }
      if named {
        fields := fields + [Name];
      }
    }

    method SettleOne(id: nat, name: nat, now: int) returns (named: bool)
      requires id in changeKeys
      modifies this`pendingNames
      ensures var t := Track(Some(changeKeys[id]), None, Get(old(pendingNames), id));
              named == SettleName(t, name, now).1
                && pendingNames == Put(old(pendingNames), id, SettleName(t, name, now).0)
    {
      named := false;
      if name != changeKeys[id].signature.name {
        if (id !in pendingNames && name != NO_NAME) || (id in pendingNames && pendingNames[id].name != name) {
          pendingNames := pendingNames[id := PendingName(name, now)];
        } else if id !in pendingNames || now - pendingNames[id].since >= LATE_EVENT_WINDOW {
          named := true;
          pendingNames := pendingNames - {id};
        } else {
          assert pendingNames[id := pendingNames[id]] == pendingNames;
        }
      } else {
        pendingNames := pendingNames - {id};
      }
    }

    method PartOne(id: nat, f: Flow, now: int, changes: seq<Change>) returns (r: seq<Change>)
      modifies this`changeKeys, this`firstObserved, this`pendingNames
      ensures BookWith(r) == PartID(old(BookWith(changes)), id, f, now)
    {
      if id !in changeKeys {
        r := Append(changes, id, f, [New, EndField], now);
      } else if changeKeys[id].end == Ongoing {
        r := Append(changes, id, f, [EndField], now);
      } else {
        r := changes;
      }
      changeKeys := changeKeys - {id};
      firstObserved := firstObserved - {id};
      pendingNames := pendingNames - {id};
    }

    method ObserveOne(id: nat, now: Moment, changes: seq<Change>) returns (r: seq<Change>)
      requires id in displayed
      modifies this`changeKeys, this`firstObserved, this`pendingNames
      ensures BookWith(r) == ObserveID(old(BookWith(changes)), id, displayed[id], displayed[id].data, now)
    {
      if id in changeKeys {
        r := CompareOne(id, displayed[id], now, changes);
      } else {
        r := IntroduceOne(id, displayed[id], now, changes);
      }
    }

    /** Compares what every ID shows with what was announced, in any order. */
    method DetectCurrent(now: Moment, ghost showing: map<nat, Data>, ghost parting: set<nat>)
      returns (changes: seq<Change>)
      requires Displays(showing) && InOrder(BookWith([]), showing, displayed.Keys, parting, nextID)
      modifies this`changeKeys, this`firstObserved, this`pendingNames
      ensures InOrder(BookWith(changes), showing, {}, parting, nextID) && Displays(showing)
    {
      changes := [];
      var todo := displayed.Keys;
      while todo != {}
        invariant todo <= displayed.Keys && Displays(showing)
        invariant InOrder(BookWith(changes), showing, todo, parting, nextID)
        decreases |todo|
      {
        ghost var some := Member(todo);
        var id :| id in todo;
        changes := DetectOne(id, now, changes, showing, todo, parting);
        todo := todo - {id};
      }
    }

    method DetectOne(id: nat, now: Moment, before: seq<Change>, ghost showing: map<nat, Data>, ghost todo: set<nat>,
                     ghost parting: set<nat>)
      returns (changes: seq<Change>)
      requires id in todo && id in displayed && Displays(showing)
      requires InOrder(BookWith(before), showing, todo, parting, nextID)
      modifies this`changeKeys, this`firstObserved, this`pendingNames
      ensures InOrder(BookWith(changes), showing, todo - {id}, parting, nextID) && Displays(showing)
    {
      ObserveInOrder(BookWith(before), showing, todo, parting, nextID, id, displayed[id], now);
      changes := ObserveOne(id, now, before);
    }

    ghost predicate Displays(showing: map<nat, Data>)
      reads this, displayed.Values
    {
      showing.Keys == displayed.Keys && forall id :: id in displayed ==> displayed[id].data == showing[id]
    }

    /** Announces the end of what is not shown any more, in any order. */
    method DetectGone(previous: map<nat, Flow>, now: Moment, before: seq<Change>, ghost showing: map<nat, Data>)
      returns (changes: seq<Change>)
      requires showing.Keys == displayed.Keys
      requires InOrder(BookWith(before), showing, {}, previous.Keys - displayed.Keys, nextID)
      modifies this`changeKeys, this`firstObserved, this`pendingNames
      ensures InOrder(BookWith(changes), showing, {}, {}, nextID)
    {
      changes := before;
      var todo := previous.Keys;
      while todo != {}
        invariant todo <= previous.Keys
                  && InOrder(BookWith(changes), showing, {}, todo - displayed.Keys, nextID)
        decreases |todo|
      {
        ghost var some := Member(todo);
        var id :| id in todo;
        if id in displayed {
          assert todo - {id} - displayed.Keys == todo - displayed.Keys;
        } else {
          PartOrderly(BookWith(changes), showing, todo - displayed.Keys, nextID, id, previous[id], now.at);
          assert todo - {id} - displayed.Keys == todo - displayed.Keys - {id};
          changes := PartOne(id, previous[id], now.at, changes);
        }
        todo := todo - {id};
      }
      assert todo - displayed.Keys == {};
    }

    method DetectChanges(previous: map<nat, Flow>, now: Moment, ghost showing: map<nat, Data>)
      returns (changes: seq<Change>)
      requires showing.Keys == displayed.Keys && forall id :: id in displayed ==> displayed[id].data == showing[id]
      requires InOrder(BookWith([]), showing, displayed.Keys, previous.Keys - displayed.Keys, nextID)
      modifies this`changeKeys, this`firstObserved, this`pendingNames
      ensures InOrder(BookWith(changes), showing, {}, {}, nextID)
    {
      changes := DetectCurrent(now, showing, previous.Keys - displayed.Keys);
      changes := DetectGone(previous, now, changes, showing);
    }

    /** Keeps the last changes in their ring. */
    method PushChanges(changes: seq<Change>)
      requires ChangesHold()
      modifies this`recentChanges, this`recentNext, this`emitted
      ensures ChangesHold() && emitted == old(emitted) + changes
    {
      for i := 0 to |changes|
        invariant ChangesHold() && emitted == old(emitted) + changes[..i]
      {
        assert changes[..i + 1] == changes[..i] + [changes[i]];
        PushOne(changes[i]);
      }
      assert changes[..|changes|] == changes;
    }

    method PushOne(c: Change)
      requires ChangesHold()
      modifies this`recentChanges, this`recentNext, this`emitted
      ensures ChangesHold() && emitted == old(emitted) + [c]
    {
      Rings.PushHolds(recentChanges, recentNext, emitted, c, MAX_HISTORY);
      if |recentChanges| < MAX_HISTORY {
        recentChanges := recentChanges + [c];
      } else {
        recentChanges := recentChanges[recentNext := c];
        recentNext := (recentNext + 1) % MAX_HISTORY;
      }
      emitted := emitted + [c];
    }

    // ----- A whole tick -----

    /** The new view of this tick's connections. */
    method Rebuild(all: seq<Merged>, now: Moment) returns (ghost order: seq<nat>)
      requires Real() && HistoryHolds() && Healthy(View()) && AllReady(View(), Start(View()), all)
      modifies this`nextID, this`history, this`historyIDs, this`historyNext, this`log, this`heap, heap.Keys
      modifies this`expired, this`flowIDs, this`active, this`displayed
      ensures Real() && HistoryHolds()
      ensures Finds(old(View()), all, order, now) && View() == Next(old(View()), all, order, now)
      ensures Lapsed(old(expired), expired, old(active), Members(order))
    {
      var b;
      b, order := Settle(all, now);
      flowIDs, active, displayed := b.ids, b.active, b.shown;
    }

    /** Places every connection and ends what is gone. */
    method Settle(all: seq<Merged>, now: Moment) returns (b: Building, ghost order: seq<nat>)
      requires Real() && HistoryHolds() && Healthy(View()) && AllReady(View(), Start(View()), all)
      modifies this`nextID, this`history, this`historyIDs, this`historyNext, this`log, this`heap, heap.Keys
      modifies this`expired
      ensures Real() && HistoryHolds() && Finds(old(View()), all, order, now)
      ensures TickOf(b) == VanishAll(old(View()), PlaceAll(old(View()), Start(old(View())), all, now), order, now)
      ensures Lapsed(old(expired), expired, active, Members(order))
    {
      ghost var s := View();
      SoundNumbers(s, all);
      b := PlaceEvery(all, now);
      order := VanishPlaced(s, all, b, now);
    }

    method VanishPlaced(ghost s: State, ghost all: seq<Merged>, b: Building, now: Moment)
      returns (ghost order: seq<nat>)
      requires Real() && HistoryHolds() && displayed.Values <= heap.Keys && active.Keys == displayed.Keys
      requires s.displayed == displayed && s.active == active && TickOf(b) == PlaceAll(s, Start(s), all, now)
      modifies this`history, this`historyIDs, this`historyNext, this`log, this`heap, heap.Keys
      modifies this`expired
      ensures Real() && HistoryHolds() && Finds(s, all, order, now)
      ensures TickOf(b) == VanishAll(s, PlaceAll(s, Start(s), all, now), order, now)
      ensures Lapsed(old(expired), expired, active, Members(order))
    {
      ghost var mid, t := View(), TickOf(b);
      order := VanishEvery(b, now);
      SameVanish(mid, s, t, order, now);
    }

    /** One tick over the merged connections, with its changes. Every ending that it
        records tells why the connection ended. */
    method UpdateAt(all: seq<Merged>, now: Moment) returns (ghost order: seq<nat>)
      requires Valid() && AllReady(View(), Start(View()), all)
      modifies this, heap.Keys
      ensures Valid() && old(emitted) <= emitted
      ensures Finds(old(View()), all, order, now) && View() == Next(old(View()), all, order, now)
      ensures Lapsed(old(expired), expired, old(active), Members(order))
      ensures TellsWhy(old(View()), all, order, now, View())
    {
      var previous := displayed;
      order := Replace(all, now);
      WhyTold(old(View()), all, order, now);
      AnnounceAll(previous, now);
    }

    method AnnounceAll(previous: map<nat, Flow>, now: Moment)
      requires Real() && HistoryHolds() && ChangesHold() && Healthy(View()) && displayed.Values <= heap.Keys
      requires InOrder(BookWith([]), Showing(View()), displayed.Keys, previous.Keys - displayed.Keys, nextID)
      modifies this`changeKeys, this`firstObserved, this`pendingNames, this`recentChanges, this`recentNext, this`emitted
      ensures Valid() && old(emitted) <= emitted
    {
      ghost var v := View();
      assert Sound(v);
      Announce(previous, now, Showing(v));
      assert View() == v;
    }

    method Replace(all: seq<Merged>, now: Moment) returns (ghost order: seq<nat>)
      requires Valid() && AllReady(View(), Start(View()), all)
      modifies this`nextID, this`history, this`historyIDs, this`historyNext, this`log, this`heap, heap.Keys
      modifies this`expired, this`flowIDs, this`active, this`displayed
      ensures Real() && HistoryHolds() && Healthy(View()) && displayed.Values <= heap.Keys
      ensures Finds(old(View()), all, order, now) && View() == Next(old(View()), all, order, now)
      ensures Lapsed(old(expired), expired, old(active), Members(order))
      ensures InOrder(BookWith([]), Showing(View()), displayed.Keys, old(displayed).Keys - displayed.Keys, nextID)
    {
      ghost var s, book := View(), BookWith([]);
      order := Rebuild(all, now);
      TickSettles(s, all, order, now, book);
    }

    method Announce(previous: map<nat, Flow>, now: Moment, ghost showing: map<nat, Data>)
      requires Real() && ChangesHold() && showing == Showing(View()) && displayed.Values <= heap.Keys
      requires InOrder(BookWith([]), showing, displayed.Keys, previous.Keys - displayed.Keys, nextID)
      modifies this`changeKeys, this`firstObserved, this`pendingNames, this`recentChanges, this`recentNext, this`emitted
      ensures Real() && ChangesHold() && old(emitted) <= emitted
      ensures InOrder(BookWith([]), showing, {}, {}, nextID)
    {
      assert forall id :: id in displayed ==> displayed[id] in displayed.Values;
      var changes := DetectChanges(previous, now, showing);
      PushChanges(changes);
      assert emitted + [] == old(emitted) + changes;
    }

    /** The snapshot a group may be merged into: that of its own ID, if nothing in the
        group failed, it is ongoing, and no other group has it. */
    method Destination(g: Group, used: set<Flow>) returns (destination: Flow?)
      requires Real() && displayed.Values <= heap.Keys && 0 !in displayed
      ensures var id := First(flowIDs, IdsOf(g.members));
              var reusable := id in displayed && !AnyFailed(g.members) && heap[displayed[id]].end == Ongoing
                && displayed[id] !in used;
              destination == if reusable then displayed[id] else null
    {
      var id: nat, reusable := 0, true;
      for i := 0 to |g.members|
        invariant First(flowIDs, IdsOf(g.members)) == if id != 0 then id else First(flowIDs, IdsOf(g.members)[i..])
        invariant reusable <==> !AnyFailed(g.members[..i])
      {
        var o := g.members[i];
        assert IdsOf(g.members)[i..][0] == o.id;
        assert g.members[..i + 1] == g.members[..i] + [o];
        if id == 0 && o.id in flowIDs {
          id := flowIDs[o.id];
        }
        reusable := reusable && !o.failed;
      }
      assert g.members[..|g.members|] == g.members;
      destination := null;
      if reusable && id in displayed {
        assert displayed[id] in displayed.Values;
        var shown := displayed[id];
        if shown.data.end == Ongoing && shown !in used {
          destination := shown;
        }
      }
    }

    /** Merges a group into its snapshot, or a new one. */
    method MergeOne(g: Group, ghost before: seq<Merged>, used: set<Flow>) returns (m: Merged)
      requires Real() && Mergeable(g) && Gathered(View(), before) && used == Used(before)
      modifies this`heap, heap.Keys
      ensures Real() && Gathered(View(), before + [m]) && Touches(old(View()), View(), m.flow)
      ensures m.flow in old(heap) || fresh(m.flow)
      ensures m.members == IdsOf(g.members) && heap == old(heap)[m.flow := g.content]
    {
      SoundHeap(View());
      var destination := Destination(g, used);
      if destination == null {
        m := MergeNew(g, before);
      } else {
        m := Merged(destination, IdsOf(g.members));
        GatherInPlace(View(), before, m, g);
        SetData(destination, g.content);
      }
    }

    method MergeNew(g: Group, ghost before: seq<Merged>) returns (m: Merged)
      requires Real() && Mergeable(g) && Gathered(View(), before) && displayed.Values <= heap.Keys
      requires var id := First(flowIDs, IdsOf(g.members));
               id in displayed && Contents(heap, displayed[id]).end == Ongoing && displayed[id] !in Used(before)
               ==> AnyFailed(g.members)
      modifies this`heap
      ensures Real() && Gathered(View(), before + [m]) && Touches(old(View()), View(), m.flow) && fresh(m.flow)
      ensures m.members == IdsOf(g.members) && heap == old(heap)[m.flow := g.content]
    {
      var merged := new Flow(g.content);
      m := Merged(merged, IdsOf(g.members));
      GatherNew(View(), before, m, g);
      heap := heap[merged := g.content];
    }

    /** Merges every group; what comes out is ready for UpdateAt. */
    method Collect(groups: seq<Group>) returns (all: seq<Merged>)
      requires Real() && Sound(View()) && forall i :: 0 <= i < |groups| ==> Mergeable(groups[i])
      modifies this`heap, heap.Keys
      ensures Real() && Sound(View()) && AllReady(View(), Start(View()), all) && Refreshed(old(View()), View())
      ensures Merges(View(), groups, all) && forall f :: f in heap && f !in old(heap) ==> fresh(f)
    {
      all := [];
      var used: set<Flow> := {};
      for k := 0 to |groups|
        invariant Real() && Gathered(View(), all) && Refreshed(old(View()), View()) && used == Used(all)
        invariant Merges(View(), groups[..k], all)
        invariant forall f :: f in heap && f !in old(heap) ==> fresh(f)
      {
        ghost var s, done := View(), all;
        var m := MergeOne(groups[k], all, used);
        MergesMore(s, View(), groups, k, done, m);
        RefreshedMore(old(View()), s, View(), m.flow);
        all := all + [m];
        used := used + {m.flow};
      }
      assert groups[..|groups|] == groups;
    }

    /** At any time, of every ID ever given out: while it is shown, nothing or one "new"
        that came first, and one "end" iff an end was announced; once it is gone, one
        "new" first and one "end". */
    lemma ChangeLogProtocol(id: nat)
      requires Valid() && 0 < id <= nextID
      ensures id in displayed ==>
              var events := EventsOf(emitted, id);
              && (events == [] || (events[0] == New && Count(events, New) == 1 && Count(events, EndField) <= 1))
              && (displayed[id].data.end != Ongoing <==> Count(events, EndField) == 1)
      ensures id !in displayed ==> Complete(EventsOf(emitted, id))
    {
      assert emitted + [] == emitted;
      if id in displayed {
        assert displayed[id] in heap && id in Showing(View());
        assert ProperAt(BookWith([]), id) && Agrees(TrackOf(BookWith([]), id), displayed[id].data);
      }
    }

    /** At any time: no ID's ending is recorded twice; what is shown has ended iff its
        ending is recorded, with that end; recorded snapshots hold what they held; and
        the rings hold the last 5000 endings. */
    lemma EndingsOnce()
      requires Valid()
      ensures forall i, j :: 0 <= i < j < |log| ==> log[i].id != log[j].id
      ensures forall e :: e in log ==> e.flow.data == e.data && e.data.end != Ongoing
      ensures forall e :: e in log && e.id in displayed ==> displayed[e.id].data.end == e.data.end
      ensures forall id :: id in displayed ==> (displayed[id].data.end != Ongoing <==> id in Ids(log))
      ensures forall f :: f in history <==> f in Rings.Recent(FlowsIn(log), 5000)
    {
      assert Once(log) && Frozen(log, heap) && Truthful(displayed, heap, log);
      forall f ensures f in history <==> f in Rings.Recent(FlowsIn(log), 5000) {
        Rings.SameEntries(history, historyNext, FlowsIn(log), f, MAX_HISTORY);
      }
    }

    /** A recorded ending is immutable but for its name: what history shows of it at any
        later moment is what it showed when it was recorded if and only if it has no
        evidence or that still says the same name. */
    lemma RecordedNamesFollow(e: Remembered, before: Moment, after: Moment)
      requires Valid() && e in log
      ensures e.flow.data == e.data
      ensures KeyOf(after, e.flow.data) == KeyOf(before, e.data) <==>
              e.data.evidence.None? || before.says(e.data.evidence.value).name == after.says(e.data.evidence.value).name
    {
      assert Frozen(log, heap);
      NameFollowsEvidence(e.data, before, after);
    }

    /** One tick of the host view: collect, rebuild, announce. */
    method Advance(groups: seq<Group>, now: Moment) returns (ghost absorbed: set<nat>)
      requires Valid() && forall i :: 0 <= i < |groups| ==> Mergeable(groups[i])
      modifies this, heap.Keys
      ensures Valid() && old(emitted) <= emitted && absorbed == Continued(old(flowIDs), groups)
      ensures Lawful(old(View()), View(), absorbed)
    {
      ghost var s := View();
      var all := Collect(groups);
      ghost var mid := View();
      RefreshedOrderly(s, mid, BookWith([]));
      absorbed := Continued(flowIDs, groups);
      var order := UpdateAt(all, now);
      TickLaw(s, mid, groups, all, order, now);
    }
  }
}

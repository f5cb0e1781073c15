/** One tick of the merged host view, as values: which connection keeps which ID, what
    each ID shows, and when its ending is recorded. Snapshots are shared objects, as
    in the source; `heap` says what each of them holds. */
module Endings {
  import opened Prelude

  const SECOND := 1_000_000_000
  const LATE_EVENT_WINDOW := 2 * SECOND
  const IDLE := 300 * SECOND

  datatype End = Ongoing | Fin | Reset | Failed | Idle | Evicted

  /** The identity of a parser's evidence of where a connection goes. The interface's flow
      owns it and goes on feeding it; snapshots refer to it. */
  type Evidence = nat

  /** What evidence says: a name, and whether that is listed among the domains. */
  datatype Said = Said(name: nat, listed: bool)

  const NO_NAME := 0

  /** The moment of a tick: its time, and what all evidence says then. */
  datatype Moment = Moment(at: int, says: Evidence -> Said)

  /** The rest of what a change of a connection is judged by; the values are left abstract. */
  datatype Marks = Marks(state: nat, process: nat, drops: nat)

  /** What a snapshot holds of its own, and the evidence that it refers to. */
  datatype Data = Data(end: End, closed: bool, reset: bool, last: int, rx: nat, tx: nat, marks: Marks,
                       evidence: Option<Evidence>)

  function Heard(now: Moment, d: Data): Said {
    if d.evidence.None? then Said(NO_NAME, false) else now.says(d.evidence.value)
  }

  /** A merged connection snapshot. */
  class Flow {
    var data: Data

    constructor (data: Data)
      ensures this.data == data
    {
      this.data := data;
    }
  }

  /** The identity of one interface's observation of a connection. */
  type Observation = nat

  /** A merged connection of this tick with its observations. */
  datatype Merged = Merged(flow: Flow, members: seq<Observation>)

  datatype Total = Total(rx: nat, tx: nat, listed: bool)

  /** A recorded ending, with what the snapshot held then. */
  datatype Remembered = Remembered(id: nat, flow: Flow, data: Data)

  function EndReason(d: Data, now: Moment): (e: End)
    ensures e != Ongoing && (d.end != Ongoing ==> e == d.end)
  {
    if d.end != Ongoing then d.end
    else if d.closed then (if d.reset then Reset else Fin)
    else if now.at - d.last > IDLE then Idle
    else Evicted
  }

  // ----- What one connection shows -----

  /** The snapshot a connection shows, what it then holds, and whether that is an
      ending to record. */
  datatype Shown = Shown(flow: Flow, data: Data, remember: bool)

  function Finish(flow: Flow, d: Data, wasEnded: bool, now: Moment): (s: Shown)
    ensures s.flow == flow && (s.data.end != Ongoing <==> d.end != Ongoing || s.remember)
    ensures s.remember ==> !wasEnded || d.end == Ongoing
    ensures d.end != Ongoing ==> s.data == d && s.remember == !wasEnded
  {
    if d.end != Ongoing then Shown(flow, d, !wasEnded)
    else if d.closed && now.at - d.last >= LATE_EVENT_WINDOW then Shown(flow, d.(end := EndReason(d, now)), true)
    else Shown(flow, d, false)
  }

  /** A new ID shows the merged snapshot. An ongoing one keeps its object and takes the
      new contents. An ended one keeps its end and leaves the old object as recorded. */
  function Show(merged: Flow, d: Data, prior: Option<Flow>, priorData: Data, now: Moment): Shown {
    if prior.None? then Finish(merged, d, false, now)
    else if priorData.end != Ongoing then Finish(merged, d.(end := priorData.end), true, now)
    else Finish(prior.value, d, false, now)
  }

  // ----- A tick in progress -----

  type Heap = map<Flow, Data>

  /** The view between ticks. */
  datatype State = State(
    nextID: nat, flowIDs: map<Observation, nat>, active: map<nat, Total>, displayed: map<nat, Flow>, heap: Heap,
    log: seq<Remembered>)

  /** The view being built. */
  datatype Tick = Tick(
    nextID: nat, ids: map<Observation, nat>, active: map<nat, Total>, shown: map<nat, Flow>, heap: Heap,
    log: seq<Remembered>, absorbed: set<nat>)

  /** The ID the first known member had, or 0. */
  function First(ids: map<Observation, nat>, members: seq<Observation>): (id: nat)
    ensures id != 0 ==> exists o :: o in members && o in ids && ids[o] == id
    decreases |members|
  {
    if members == [] then 0
    else if members[0] in ids && ids[members[0]] != 0 then ids[members[0]]
    else First(ids, members[1..])
  }

  function Known(ids: map<Observation, nat>, members: seq<Observation>): set<nat> {
    set o | o in members && o in ids && ids[o] != 0 :: ids[o]
  }

  function Assign(ids: map<Observation, nat>, members: seq<Observation>, id: nat): map<Observation, nat> {
    map o | o in ids.Keys + (set m | m in members) :: if o in members then id else ids[o]
  }

  /** The ID a merged connection gets: its first known one, unless that is taken. */
  function IdFor(s: State, t: Tick, m: Merged): (id: nat)
    ensures id !in t.active || id == t.nextID + 1
  {
    var known := First(s.flowIDs, m.members);
    if known == 0 || known in t.active then t.nextID + 1 else known
  }

  function Prior(s: State, id: nat): Option<Flow> { if id in s.displayed then Some(s.displayed[id]) else None }

  function Contents(heap: Heap, f: Flow): Data {
    if f in heap then heap[f] else Data(Ongoing, false, false, 0, 0, 0, Marks(0, 0, 0), None)
  }

  function ShownFor(s: State, t: Tick, m: Merged, now: Moment): Shown {
    var prior := Prior(s, IdFor(s, t, m));
    Show(m.flow, Contents(t.heap, m.flow), prior, Contents(t.heap, if prior.Some? then prior.value else m.flow), now)
  }

  function TotalOf(now: Moment, d: Data): Total { Total(d.rx, d.tx, Heard(now, d).listed) }

  function Record(log: seq<Remembered>, id: nat, shown: Shown): seq<Remembered> {
    if shown.remember then log + [Remembered(id, shown.flow, shown.data)] else log
  }

  /** One merged connection takes its place. */
  function Place(s: State, t: Tick, m: Merged, now: Moment): Tick {
    var id, shown := IdFor(s, t, m), ShownFor(s, t, m, now);
    Tick(if id > t.nextID then id else t.nextID, Assign(t.ids, m.members, id),
         t.active[id := TotalOf(now, Contents(t.heap, m.flow))], t.shown[id := shown.flow],
         t.heap[shown.flow := shown.data], Record(t.log, id, shown), t.absorbed + Known(s.flowIDs, m.members))
  }

  function PlaceAll(s: State, t: Tick, all: seq<Merged>, now: Moment): Tick
    decreases |all|
  {
    if all == [] then t else Place(s, PlaceAll(s, t, all[..|all| - 1], now), all[|all| - 1], now)
  }

  /** An ID that is neither shown nor taken over ends here. */
  function Vanish(s: State, t: Tick, id: nat, now: Moment): Tick
    requires id in s.displayed
  {
    var f := s.displayed[id];
    var d := Contents(t.heap, f);
    if d.end != Ongoing then t
    else
      var ended := d.(end := EndReason(d, now));
      t.(heap := t.heap[f := ended], log := t.log + [Remembered(id, f, ended)])
  }

  function VanishAll(s: State, t: Tick, ids: seq<nat>, now: Moment): Tick
    requires forall i :: 0 <= i < |ids| ==> ids[i] in s.displayed
    decreases |ids|
  {
    if ids == [] then t else Vanish(s, VanishAll(s, t, ids[..|ids| - 1], now), ids[|ids| - 1], now)
  }

  function Start(s: State): Tick { Tick(s.nextID, map[], map[], map[], s.heap, s.log, {}) }

  function Done(t: Tick): State { State(t.nextID, t.ids, t.active, t.shown, t.heap, t.log) }

  // ----- What every tick keeps -----

  function Ids(log: seq<Remembered>): set<nat> { set e | e in log :: e.id }

  /** No ID's ending is recorded twice. */
  ghost predicate Once(log: seq<Remembered>) { forall i, j :: 0 <= i < j < |log| ==> log[i].id != log[j].id }

  /** Recorded snapshots still hold what they held when they were recorded. */
  ghost predicate Frozen(log: seq<Remembered>, heap: Heap) {
    forall e :: e in log ==> e.data.end != Ongoing && e.flow in heap && heap[e.flow] == e.data
  }

  /** What is shown has ended exactly when its ending is recorded, and then with the
      recorded end. */
  ghost predicate Truthful(shown: map<nat, Flow>, heap: Heap, log: seq<Remembered>) {
    && (forall id :: id in shown ==> shown[id] in heap && (heap[shown[id]].end != Ongoing <==> id in Ids(log)))
    && forall e :: e in log && e.id in shown ==> heap[shown[e.id]].end == e.data.end
  }

  /** Two IDs may share a snapshot only once it has ended. */
  ghost predicate Apart(shown: map<nat, Flow>, heap: Heap) {
    forall a, b :: a in shown && b in shown && a != b && shown[a] == shown[b] ==>
      Contents(heap, shown[a]).end != Ongoing
  }

  ghost predicate Numbered(ids: set<nat>, nextID: nat) { forall id :: id in ids ==> 0 < id <= nextID }

  ghost predicate Sound(s: State) {
    && s.active.Keys == s.displayed.Keys && s.flowIDs.Values <= s.displayed.Keys
    && Numbered(s.displayed.Keys, s.nextID) && Numbered(Ids(s.log), s.nextID) && Once(s.log)
    && Frozen(s.log, s.heap) && Truthful(s.displayed, s.heap, s.log) && Apart(s.displayed, s.heap)
  }

  // ----- Where a tick in progress stands -----

  /** IDs that nothing shows yet still show what they did. */
  ghost predicate Untouched(s: State, t: Tick) {
    forall id :: id in s.displayed && id !in t.shown ==>
      s.displayed[id] in t.heap && s.displayed[id] in s.heap && t.heap[s.displayed[id]] == s.heap[s.displayed[id]]
  }

  ghost predicate Separate(s: State, t: Tick) {
    forall a, b :: a in t.shown && b in s.displayed && b !in t.shown ==> t.shown[a] != s.displayed[b]
  }

  /** Every ID given out in this tick is shown. */
  ghost predicate NewShown(s: State, t: Tick) { forall id: nat :: s.nextID < id <= t.nextID ==> id in t.shown }

  /** IDs are those of the last tick or new, and so are the endings recorded. */
  ghost predicate Counted(s: State, t: Tick) {
    && t.active.Keys == t.shown.Keys && t.ids.Values <= t.shown.Keys
    && s.nextID <= t.nextID && Numbered(t.shown.Keys, t.nextID) && Numbered(Ids(t.log), t.nextID)
    && (forall id :: id in t.shown ==> id in s.displayed || id > s.nextID) && NewShown(s, t)
    && Ids(t.log) <= Ids(s.log) + t.shown.Keys && s.log <= t.log
  }

  ghost predicate Placing(s: State, t: Tick) {
    && Counted(s, t) && Once(t.log) && Frozen(t.log, t.heap) && Truthful(t.shown, t.heap, t.log)
    && Apart(t.shown, t.heap)
    && Untouched(s, t) && Separate(s, t)
  }

  // ----- What the merged snapshots may be -----

  function Flows(log: seq<Remembered>): set<Flow> { set e | e in log :: e.flow }

  /** A snapshot of this tick alone. */
  ghost predicate Alone(s: State, t: Tick, m: Merged) {
    m.flow in t.heap && m.flow !in s.displayed.Values && m.flow !in t.shown.Values && m.flow !in Flows(t.log)
  }

  /** The ongoing snapshot of the connection's own ID, reused. */
  ghost predicate InPlace(s: State, t: Tick, m: Merged) {
    var id := First(s.flowIDs, m.members);
    && id in s.displayed && id !in t.shown && m.flow == s.displayed[id]
    && m.flow in t.heap && t.heap[m.flow].end == Ongoing
  }

  /** The same, once another connection took the ID and ended in it. */
  ghost predicate TakenOver(s: State, t: Tick, m: Merged) {
    var id := First(s.flowIDs, m.members);
    id in t.shown && m.flow == t.shown[id] && m.flow in t.heap && t.heap[m.flow].end != Ongoing
  }

  ghost predicate Ready(s: State, t: Tick, m: Merged) { Alone(s, t, m) || InPlace(s, t, m) || TakenOver(s, t, m) }

  /** A connection that comes before the one whose snapshot holds their common ID has ended. */
  ghost predicate Ordered(s: State, t: Tick, m: Merged, later: Merged) {
    var id := First(s.flowIDs, later.members);
    First(s.flowIDs, m.members) == id && id in s.displayed && later.flow == s.displayed[id] ==>
      Contents(t.heap, m.flow).end != Ongoing
  }

  ghost predicate AllReady(s: State, t: Tick, all: seq<Merged>) {
    && (forall i :: 0 <= i < |all| ==> Ready(s, t, all[i]))
    && (forall i, j :: 0 <= i < j < |all| ==> all[i].flow != all[j].flow && Ordered(s, t, all[i], all[j]))
  }

  // ----- What is written -----

  /** The one snapshot a step writes, and why nothing else minds. */
  ghost predicate Harmless(s: State, t: Tick, id: nat, w: Shown) {
    && w.flow in t.heap && id !in t.shown && (id in s.displayed || id == t.nextID + 1)
    && (forall b :: b in s.displayed && b !in t.shown && b != id ==> s.displayed[b] != w.flow)
    && (w.flow in Flows(t.log) ==> w.data == t.heap[w.flow])
    && (w.flow in t.shown.Values ==> w.data == t.heap[w.flow] && w.data.end != Ongoing)
    && (w.data.end != Ongoing <==> w.remember || id in Ids(t.log)) && (w.remember ==> id !in Ids(t.log))
    && (forall e :: e in t.log && e.id == id ==> w.data.end == e.data.end)
  }

  lemma NewIsUnrecorded(s: State, t: Tick)
    requires Sound(s) && Placing(s, t)
    ensures t.nextID + 1 !in Ids(t.log) && t.nextID + 1 !in s.displayed && t.nextID + 1 !in t.shown
  {
  }

  lemma FirstIsDisplayed(s: State, members: seq<Observation>)
    requires Sound(s)
    ensures First(s.flowIDs, members) != 0 ==> First(s.flowIDs, members) in s.displayed
  {
    var known := First(s.flowIDs, members);
    if known != 0 {
      var o :| o in members && o in s.flowIDs && s.flowIDs[o] == known;
      assert known in s.flowIDs.Values;
    }
  }

  lemma WriteNew(s: State, t: Tick, m: Merged, now: Moment)
    requires Sound(s) && Placing(s, t) && Ready(s, t, m) && IdFor(s, t, m) !in s.displayed
    ensures Harmless(s, t, IdFor(s, t, m), ShownFor(s, t, m, now))
  {
    NewIsUnrecorded(s, t);
    FirstIsDisplayed(s, m.members);
    assert IdFor(s, t, m) == t.nextID + 1;
  }

  /** An ID that waits for its connection has its ending recorded iff it showed one. */
  lemma WaitingIsTruthful(s: State, t: Tick, id: nat)
    requires Sound(s) && Placing(s, t) && id in s.displayed && id !in t.shown
    ensures s.displayed[id] in t.heap && (t.heap[s.displayed[id]].end != Ongoing <==> id in Ids(t.log))
    ensures forall e :: e in t.log && e.id == id ==> t.heap[s.displayed[id]].end == e.data.end
  {
    PrefixIds(s.log, t.log);
    forall e | e in t.log && e.id == id ensures t.heap[s.displayed[id]].end == e.data.end {
      assert id in Ids(t.log);
      var i :| 0 <= i < |s.log| && s.log[i].id == id;
      OnlyOne(t.log, e, t.log[i]);
    }
  }

  lemma PrefixIds(a: seq<Remembered>, b: seq<Remembered>)
    requires a <= b
    ensures Ids(a) <= Ids(b)
  {
    forall e | e in a ensures e in b {
      var i :| 0 <= i < |a| && a[i] == e;
      assert b[i] == e;
    }
  }

  lemma OnlyOne(log: seq<Remembered>, d: Remembered, e: Remembered)
    requires Once(log) && d in log && e in log && d.id == e.id
    ensures d == e
  {
  }

  lemma WriteEnded(s: State, t: Tick, m: Merged, now: Moment)
    requires Sound(s) && Placing(s, t) && Ready(s, t, m) && IdFor(s, t, m) in s.displayed
    requires Contents(t.heap, s.displayed[IdFor(s, t, m)]).end != Ongoing
    ensures Harmless(s, t, IdFor(s, t, m), ShownFor(s, t, m, now))
  {
    var id := IdFor(s, t, m);
    WaitingIsTruthful(s, t, id);
    assert id == First(s.flowIDs, m.members);
    assert Alone(s, t, m);
  }

  lemma WriteOngoing(s: State, t: Tick, m: Merged, now: Moment)
    requires Sound(s) && Placing(s, t) && Ready(s, t, m) && IdFor(s, t, m) in s.displayed
    requires Contents(t.heap, s.displayed[IdFor(s, t, m)]).end == Ongoing
    ensures Harmless(s, t, IdFor(s, t, m), ShownFor(s, t, m, now))
  {
    var id := IdFor(s, t, m);
    var o := s.displayed[id];
    WaitingIsTruthful(s, t, id);
    assert o !in Flows(t.log) by { if o in Flows(t.log) { assert false; } }
    forall b | b in s.displayed && b !in t.shown && b != id ensures s.displayed[b] != o {
      if s.displayed[b] == o { assert false; }
    }
  }

  lemma Write(s: State, t: Tick, m: Merged, now: Moment)
    requires Sound(s) && Placing(s, t) && Ready(s, t, m)
    ensures Harmless(s, t, IdFor(s, t, m), ShownFor(s, t, m, now))
  {
    var id := IdFor(s, t, m);
    if id !in s.displayed {
      WriteNew(s, t, m, now);
    } else if Contents(t.heap, s.displayed[id]).end != Ongoing {
      WriteEnded(s, t, m, now);
    } else {
      WriteOngoing(s, t, m, now);
    }
  }

  // ----- A step keeps it -----

  lemma RecordKeeps(s: State, t: Tick, id: nat, w: Shown)
    requires Sound(s) && Placing(s, t) && Harmless(s, t, id, w)
    ensures var log := Record(t.log, id, w);
            && Once(log) && s.log <= log && Frozen(log, t.heap[w.flow := w.data])
            && Ids(log) == Ids(t.log) + (if w.remember then {id} else {})
  {
    var log := Record(t.log, id, w);
    if w.remember {
      assert log[..|t.log|] == t.log;
      assert log[|t.log|] == Remembered(id, w.flow, w.data);
      assert Ids(log) == Ids(t.log) + {id};
      forall i | 0 <= i < |t.log| ensures log[i].id != id {
        assert t.log[i] in t.log && t.log[i].id in Ids(t.log);
      }
    }
    forall e | e in log
      ensures e.data.end != Ongoing && e.flow in t.heap && t.heap[w.flow := w.data][e.flow] == e.data
    {
      if e in t.log && e.flow == w.flow {
        assert e.flow in Flows(t.log);
      }
    }
  }

  lemma HeapKeeps(t: Tick, id: nat, w: Shown, a: nat)
    requires a in t.shown && t.shown[a] in t.heap
    requires w.flow in t.shown.Values ==> w.flow in t.heap && w.data == t.heap[w.flow]
    ensures t.heap[w.flow := w.data][t.shown[a]] == t.heap[t.shown[a]]
  {
    assert t.shown[a] in t.shown.Values;
  }

  lemma ShownTruthful(s: State, t: Tick, id: nat, w: Shown)
    requires Sound(s) && Placing(s, t) && Harmless(s, t, id, w)
    ensures Truthful(t.shown[id := w.flow], t.heap[w.flow := w.data], Record(t.log, id, w))
  {
    RecordKeeps(s, t, id, w);
    var shown, heap, log := t.shown[id := w.flow], t.heap[w.flow := w.data], Record(t.log, id, w);
    forall a | a in shown ensures shown[a] in heap && (heap[shown[a]].end != Ongoing <==> a in Ids(log)) {
      if a != id { HeapKeeps(t, id, w, a); }
    }
    forall e | e in log && e.id in shown ensures heap[shown[e.id]].end == e.data.end {
      if e.id != id { HeapKeeps(t, id, w, e.id); } else if e in t.log { assert e.id in Ids(t.log); }
    }
  }

  lemma ShownApart(t: Tick, id: nat, w: Shown)
    requires Apart(t.shown, t.heap) && id !in t.shown
    requires w.flow in t.shown.Values ==> w.flow in t.heap && w.data == t.heap[w.flow] && w.data.end != Ongoing
    ensures Apart(t.shown[id := w.flow], t.heap[w.flow := w.data])
  {
    var shown, heap := t.shown[id := w.flow], t.heap[w.flow := w.data];
    forall a, b | a in shown && b in shown && a != b && shown[a] == shown[b]
      ensures Contents(heap, shown[a]).end != Ongoing
    {
      if a == id { assert shown[b] in t.shown.Values; } else if b == id { assert shown[a] in t.shown.Values; }
    }
  }

  lemma ShownKeeps(s: State, t: Tick, id: nat, w: Shown)
    requires Sound(s) && Placing(s, t) && Harmless(s, t, id, w)
    ensures Truthful(t.shown[id := w.flow], t.heap[w.flow := w.data], Record(t.log, id, w))
    ensures Apart(t.shown[id := w.flow], t.heap[w.flow := w.data])
  {
    ShownTruthful(s, t, id, w);
    ShownApart(t, id, w);
  }

  lemma RestKeeps(s: State, t: Tick, id: nat, w: Shown)
    requires Sound(s) && Placing(s, t) && Harmless(s, t, id, w)
    ensures var u := t.(shown := t.shown[id := w.flow], heap := t.heap[w.flow := w.data]);
            Untouched(s, u) && Separate(s, u)
  {
  }

  lemma AssignKeeps(ids: map<Observation, nat>, members: seq<Observation>, id: nat, keys: set<nat>)
    requires ids.Values <= keys
    ensures Assign(ids, members, id).Values <= keys + {id}
  {
  }

  /** `u` is `t` with one more connection shown. */
  ghost predicate Puts(t: Tick, u: Tick, id: nat, w: Shown) {
    && u.shown == t.shown[id := w.flow] && u.heap == t.heap[w.flow := w.data] && u.log == Record(t.log, id, w)
    && u.nextID == (if id > t.nextID then id else t.nextID)
    && u.active.Keys == t.active.Keys + {id} && u.ids.Values <= t.ids.Values + {id}
  }

  lemma NumberedMore(ids: set<nat>, id: nat, before: nat, after: nat)
    requires Numbered(ids, before) && before <= after && 0 < id <= after
    ensures Numbered(ids, after) && Numbered(ids + {id}, after)
  {
  }

  lemma PutIsNumbered(s: State, t: Tick, u: Tick, id: nat, w: Shown)
    requires Sound(s) && Placing(s, t) && Harmless(s, t, id, w) && Puts(t, u, id, w)
    ensures t.nextID <= u.nextID && Numbered(u.shown.Keys, u.nextID) && Numbered(Ids(u.log), u.nextID)
    ensures Ids(u.log) <= Ids(s.log) + u.shown.Keys && s.log <= u.log
  {
    RecordKeeps(s, t, id, w);
    assert u.shown.Keys == t.shown.Keys + {id};
    NumberedMore(t.shown.Keys, id, t.nextID, u.nextID);
    NumberedMore(Ids(t.log), id, t.nextID, u.nextID);
  }

  lemma PutCounts(s: State, t: Tick, u: Tick, id: nat, w: Shown)
    requires Sound(s) && Placing(s, t) && Harmless(s, t, id, w) && Puts(t, u, id, w)
    ensures Counted(s, u)
  {
    PutIsNumbered(s, t, u, id, w);
    assert u.shown.Keys == t.shown.Keys + {id};
  }

  lemma PutKeeps(s: State, t: Tick, u: Tick, id: nat, w: Shown)
    requires Sound(s) && Placing(s, t) && Harmless(s, t, id, w) && Puts(t, u, id, w)
    ensures Placing(s, u)
  {
    PutCounts(s, t, u, id, w);
    RecordKeeps(s, t, id, w);
    ShownKeeps(s, t, id, w);
    RestKeeps(s, t, id, w);
    assert Untouched(s, u) && Separate(s, u);
  }

  lemma PlacePuts(s: State, t: Tick, m: Merged, now: Moment)
    ensures Puts(t, Place(s, t, m, now), IdFor(s, t, m), ShownFor(s, t, m, now))
  {
    AssignKeeps(t.ids, m.members, IdFor(s, t, m), t.ids.Values);
  }

  lemma PlaceKeeps(s: State, t: Tick, m: Merged, now: Moment)
    requires Sound(s) && Placing(s, t) && Ready(s, t, m)
    ensures Placing(s, Place(s, t, m, now))
  {
    Write(s, t, m, now);
    PlacePuts(s, t, m, now);
    PutKeeps(s, t, Place(s, t, m, now), IdFor(s, t, m), ShownFor(s, t, m, now));
  }

  lemma AloneStays(s: State, t: Tick, u: Tick, id: nat, w: Shown, later: Merged)
    requires Puts(t, u, id, w) && Alone(s, t, later) && w.flow != later.flow
    ensures Alone(s, u, later) && u.heap[later.flow] == t.heap[later.flow]
  {
    assert Flows(u.log) <= Flows(t.log) + {w.flow};
    assert u.shown.Values <= t.shown.Values + {w.flow};
  }

  lemma TakenOverStays(s: State, t: Tick, u: Tick, id: nat, w: Shown, later: Merged)
    requires Harmless(s, t, id, w) && Puts(t, u, id, w) && TakenOver(s, t, later)
    ensures TakenOver(s, u, later)
  {
    assert later.flow in t.shown.Values;
  }

  lemma InPlaceStays(s: State, t: Tick, u: Tick, id: nat, w: Shown, later: Merged)
    requires Harmless(s, t, id, w) && Puts(t, u, id, w) && InPlace(s, t, later) && id != First(s.flowIDs, later.members)
    ensures InPlace(s, u, later)
  {
  }

  lemma BecomesTakenOver(s: State, t: Tick, m: Merged, later: Merged, now: Moment)
    requires InPlace(s, t, later) && IdFor(s, t, m) == First(s.flowIDs, later.members)
    requires Counted(s, t) && Numbered(s.displayed.Keys, s.nextID)
    requires Ordered(s, t, m, later)
    ensures TakenOver(s, Place(s, t, m, now), later)
  {
    var id := IdFor(s, t, m);
    assert id <= s.nextID <= t.nextID;
    assert id == First(s.flowIDs, m.members);
    var w := ShownFor(s, t, m, now);
    assert w == Finish(later.flow, Contents(t.heap, m.flow), false, now);
  }

  /** Placing one connection leaves the later ones ready. */
  lemma LaterStaysReady(s: State, t: Tick, m: Merged, later: Merged, now: Moment)
    requires Sound(s) && Placing(s, t) && Ready(s, t, m) && Ready(s, t, later)
    requires m.flow != later.flow && Ordered(s, t, m, later)
    ensures Ready(s, Place(s, t, m, now), later)
  {
    var id, w, u := IdFor(s, t, m), ShownFor(s, t, m, now), Place(s, t, m, now);
    Write(s, t, m, now);
    PlacePuts(s, t, m, now);
    if Alone(s, t, later) {
      AloneStays(s, t, u, id, w, later);
    } else if TakenOver(s, t, later) {
      TakenOverStays(s, t, u, id, w, later);
    } else if id != First(s.flowIDs, later.members) {
      InPlaceStays(s, t, u, id, w, later);
    } else {
      BecomesTakenOver(s, t, m, later, now);
    }
  }

  // ----- All connections of a tick -----

  lemma EndedStays(s: State, t: Tick, m: Merged, f: Flow, now: Moment)
    requires f != m.flow && Contents(t.heap, f).end != Ongoing
    ensures Contents(Place(s, t, m, now).heap, f) == Contents(t.heap, f)
  {
  }

  lemma RestStaysReady(s: State, t: Tick, all: seq<Merged>, now: Moment)
    requires Sound(s) && Placing(s, t) && all != [] && AllReady(s, t, all)
    ensures AllReady(s, Place(s, t, all[0], now), all[1..])
  {
    var u, rest := Place(s, t, all[0], now), all[1..];
    forall i | 0 <= i < |rest| ensures Ready(s, u, rest[i]) {
      assert rest[i] == all[i + 1];
      LaterStaysReady(s, t, all[0], rest[i], now);
    }
    forall i, j | 0 <= i < j < |rest| ensures rest[i].flow != rest[j].flow && Ordered(s, u, rest[i], rest[j]) {
      assert rest[i] == all[i + 1] && rest[j] == all[j + 1];
      assert Ordered(s, t, rest[i], rest[j]);
      if Contents(t.heap, rest[i].flow).end != Ongoing {
        EndedStays(s, t, all[0], rest[i].flow, now);
      }
    }
  }

  /** Ticks in progress with what is still to be placed. */
  ghost predicate OnTrack(s: State, t: Tick, rest: seq<Merged>) { Placing(s, t) && AllReady(s, t, rest) }

  lemma PlaceNext(s: State, t: Tick, rest: seq<Merged>, now: Moment)
    requires Sound(s) && OnTrack(s, t, rest) && rest != []
    ensures OnTrack(s, Place(s, t, rest[0], now), rest[1..])
  {
    PlaceKeeps(s, t, rest[0], now);
    RestStaysReady(s, t, rest, now);
  }

  lemma {:induction false} PlaceSome(s: State, t: Tick, all: seq<Merged>, k: nat, now: Moment)
    requires Sound(s) && OnTrack(s, t, all) && k <= |all|
    ensures OnTrack(s, PlaceAll(s, t, all[..k], now), all[k..])
    decreases k
  {
    if k == 0 {
      assert all[..0] == [] && all[0..] == all;
    } else {
      PlaceSome(s, t, all, k - 1, now);
      assert all[..k][..k - 1] == all[..k - 1] && all[k - 1..][1..] == all[k..] && all[k - 1..][0] == all[k - 1];
      var u := PlaceAll(s, t, all[..k - 1], now);
      PlaceNext(s, u, all[k - 1..], now);
      assert PlaceAll(s, t, all[..k], now) == Place(s, u, all[k - 1], now);
    }
  }

  lemma StartPlacing(s: State)
    requires Sound(s)
    ensures Placing(s, Start(s))
  {
  }

  // ----- The IDs that are gone -----

  ghost predicate Waiting(s: State, t: Tick, id: nat) { id in s.displayed && id !in t.shown }

  /** IDs not shown any more: ended iff recorded, and apart while ongoing. */
  ghost predicate WaitTruthful(s: State, t: Tick) {
    && (forall b :: Waiting(s, t, b) ==>
          s.displayed[b] in t.heap && (t.heap[s.displayed[b]].end != Ongoing <==> b in Ids(t.log)))
    && forall a, b :: Waiting(s, t, a) && Waiting(s, t, b) && a != b && s.displayed[a] == s.displayed[b] ==>
         Contents(t.heap, s.displayed[a]).end != Ongoing
  }

  ghost predicate Leaving(s: State, t: Tick) {
    && t.active.Keys == t.shown.Keys && t.ids.Values <= t.shown.Keys
    && s.nextID <= t.nextID && Numbered(t.shown.Keys, t.nextID) && Numbered(Ids(t.log), t.nextID)
    && (forall id :: id in t.shown ==> id in s.displayed || id > s.nextID) && NewShown(s, t) && s.log <= t.log
    && Once(t.log) && Frozen(t.log, t.heap) && Truthful(t.shown, t.heap, t.log) && Apart(t.shown, t.heap)
    && Separate(s, t) && WaitTruthful(s, t)
  }

  lemma PlacedWaits(s: State, t: Tick)
    requires Sound(s) && Placing(s, t)
    ensures WaitTruthful(s, t)
  {
    forall b | Waiting(s, t, b)
      ensures s.displayed[b] in t.heap && (t.heap[s.displayed[b]].end != Ongoing <==> b in Ids(t.log))
    {
      WaitingIsTruthful(s, t, b);
    }
    WaitsApart(s, t);
  }

  lemma WaitsApart(s: State, t: Tick)
    requires Apart(s.displayed, s.heap) && Untouched(s, t)
    ensures forall a, b :: Waiting(s, t, a) && Waiting(s, t, b) && a != b && s.displayed[a] == s.displayed[b] ==>
              Contents(t.heap, s.displayed[a]).end != Ongoing
  {
  }

  lemma PlacedLeaves(s: State, t: Tick)
    requires Sound(s) && Placing(s, t)
    ensures Leaving(s, t)
  {
    PlacedWaits(s, t);
  }

  lemma AppendRecord(log: seq<Remembered>, e: Remembered)
    requires Once(log) && e.id !in Ids(log)
    ensures Once(log + [e]) && Ids(log + [e]) == Ids(log) + {e.id}
  {
    var more := log + [e];
    assert more[|log|] == e;
    forall d | d in log ensures d in more {
      var i :| 0 <= i < |log| && log[i] == d;
      assert more[i] == d;
    }
    forall i | 0 <= i < |log| ensures more[i].id != e.id {
      assert log[i].id in Ids(log);
    }
  }

  /** The one snapshot an ending writes is neither shown nor recorded. */
  ghost predicate Buries(s: State, t: Tick, id: nat, e: Data) {
    && Waiting(s, t, id) && s.displayed[id] in t.heap && t.heap[s.displayed[id]].end == Ongoing && e.end != Ongoing
    && id !in Ids(t.log) && s.displayed[id] !in t.shown.Values && s.displayed[id] !in Flows(t.log)
  }

  lemma BuryRecords(s: State, t: Tick, id: nat, e: Data)
    requires Leaving(s, t) && Buries(s, t, id, e)
    ensures var heap, log := t.heap[s.displayed[id] := e], t.log + [Remembered(id, s.displayed[id], e)];
            && Once(log) && Ids(log) == Ids(t.log) + {id} && s.log <= log && Frozen(log, heap)
  {
    AppendRecord(t.log, Remembered(id, s.displayed[id], e));
    forall r | r in t.log ensures r.flow != s.displayed[id] {
      assert r.flow in Flows(t.log);
    }
  }

  lemma BuryShows(s: State, t: Tick, id: nat, e: Data)
    requires Leaving(s, t) && Buries(s, t, id, e)
    ensures var heap, log := t.heap[s.displayed[id] := e], t.log + [Remembered(id, s.displayed[id], e)];
            Truthful(t.shown, heap, log) && Apart(t.shown, heap)
  {
    BuryRecords(s, t, id, e);
    forall a | a in t.shown ensures t.shown[a] != s.displayed[id] {
      assert t.shown[a] in t.shown.Values;
    }
  }

  lemma BuryWaits(s: State, t: Tick, id: nat, e: Data)
    requires Leaving(s, t) && Buries(s, t, id, e)
    ensures var log := t.log + [Remembered(id, s.displayed[id], e)];
            WaitTruthful(s, t.(heap := t.heap[s.displayed[id] := e], log := log))
  {
    BuryRecords(s, t, id, e);
  }

  lemma VanishKeeps(s: State, t: Tick, id: nat, now: Moment)
    requires Sound(s) && Leaving(s, t) && Waiting(s, t, id)
    ensures Leaving(s, Vanish(s, t, id, now)) && Vanish(s, t, id, now).shown == t.shown
    ensures Ids(Vanish(s, t, id, now).log) == Ids(t.log) + {id}
  {
    var f := s.displayed[id];
    if t.heap[f].end == Ongoing {
      var e := t.heap[f].(end := EndReason(t.heap[f], now));
      Unshared(s, t, id);
      BuryRecords(s, t, id, e);
      BuryShows(s, t, id, e);
      BuryWaits(s, t, id, e);
      var u := t.(heap := t.heap[f := e], log := t.log + [Remembered(id, f, e)]);
      assert u == Vanish(s, t, id, now);
      NumberedMore(Ids(t.log), id, t.nextID, t.nextID);
      assert Separate(s, u);
    } else {
      assert Ids(t.log) == Ids(t.log) + {id};
    }
  }

  lemma Unshared(s: State, t: Tick, id: nat)
    requires Leaving(s, t) && Waiting(s, t, id) && t.heap[s.displayed[id]].end == Ongoing
    ensures s.displayed[id] !in t.shown.Values && s.displayed[id] !in Flows(t.log) && id !in Ids(t.log)
  {
  }

  function Members(ids: seq<nat>): set<nat> { set id | id in ids }

  lemma {:induction false} VanishSome(s: State, t: Tick, ids: seq<nat>, now: Moment)
    requires Sound(s) && Leaving(s, t) && forall i :: 0 <= i < |ids| ==> Waiting(s, t, ids[i])
    ensures var u := VanishAll(s, t, ids, now);
            Leaving(s, u) && u.shown == t.shown && Ids(u.log) == Ids(t.log) + Members(ids)
    decreases |ids|
  {
    if ids != [] {
      var k := |ids| - 1;
      VanishSome(s, t, ids[..k], now);
      VanishKeeps(s, VanishAll(s, t, ids[..k], now), ids[k], now);
      MembersMore(ids);
    }
  }

  lemma MembersMore(ids: seq<nat>)
    requires ids != []
    ensures Members(ids) == Members(ids[..|ids| - 1]) + {ids[|ids| - 1]}
  {
    assert ids == ids[..|ids| - 1] + [ids[|ids| - 1]];
  }

  // ----- One whole tick -----

  /** The IDs that end with a tick: neither shown nor taken over by another connection. */
  function Gone(s: State, t: Tick): set<nat> { s.active.Keys - t.active.Keys - t.absorbed }

  function Next(s: State, all: seq<Merged>, order: seq<nat>, now: Moment): State
    requires forall i :: 0 <= i < |order| ==> order[i] in s.displayed
  {
    Done(VanishAll(s, PlaceAll(s, Start(s), all, now), order, now))
  }

  ghost predicate Inputs(s: State, all: seq<Merged>, order: seq<nat>, now: Moment) {
    && Sound(s) && AllReady(s, Start(s), all)
    && Members(order) == Gone(s, PlaceAll(s, Start(s), all, now))
    && forall i :: 0 <= i < |order| ==> order[i] in s.displayed
  }

  /** Every tick, in whatever order the maps are walked: the invariant holds again;
      recorded endings stay recorded and none is recorded twice; what is shown kept
      its ID or got a new one; and every ID that is gone has its ending recorded. */
  lemma TickKeeps(s: State, all: seq<Merged>, order: seq<nat>, now: Moment)
    requires Inputs(s, all, order, now)
    ensures var next, placed := Next(s, all, order, now), PlaceAll(s, Start(s), all, now);
            && Sound(next) && s.log <= next.log && s.nextID <= next.nextID
            && (forall id :: id in next.displayed ==> id in s.displayed || s.nextID < id)
            && (forall id: nat :: s.nextID < id <= next.nextID ==> id in next.displayed)
            && next.displayed.Keys == placed.shown.Keys && Gone(s, placed) <= Ids(next.log)
            && Ids(next.log) <= Ids(s.log) + next.displayed.Keys + Gone(s, placed)
  {
    var placed := PlaceAll(s, Start(s), all, now);
    StartPlacing(s);
    assert OnTrack(s, Start(s), all);
    PlaceSome(s, Start(s), all, |all|, now);
    assert all[..|all|] == all;
    PlacedLeaves(s, placed);
    forall i | 0 <= i < |order| ensures Waiting(s, placed, order[i]) {
      assert order[i] in Members(order);
    }
    VanishSome(s, placed, order, now);
  }

  /** An end that was shown is shown for good: a tick never changes it. */
  lemma EndsAreFinal(s: State, next: State, id: nat)
    requires Sound(s) && Sound(next) && s.log <= next.log && id in s.displayed && id in next.displayed
    requires s.heap[s.displayed[id]].end != Ongoing
    ensures next.heap[next.displayed[id]].end == s.heap[s.displayed[id]].end
  {
    assert id in Ids(s.log);
    var i :| 0 <= i < |s.log| && s.log[i].id == id;
    assert s.log[i] in s.log && next.log[i] == s.log[i] && next.log[i] in next.log;
  }

  // ----- Which connections are shown as going on -----

  /** Some connection among the first `k` has this first known ID. */
  ghost predicate Claimed(s: State, all: seq<Merged>, k: nat, known: nat)
    requires k <= |all|
  {
    exists j :: 0 <= j < k && First(s.flowIDs, all[j].members) == known
  }

  lemma ClaimedNext(s: State, all: seq<Merged>, k: nat, known: nat)
    requires k < |all|
    ensures Claimed(s, all, k + 1, known) <==> Claimed(s, all, k, known) || First(s.flowIDs, all[k].members) == known
  {
  }

  /** Some connection among the first `k` has the same first known ID. */
  ghost predicate Same(s: State, all: seq<Merged>, i: nat, k: nat)
    requires k <= i < |all|
  {
    Claimed(s, all, k, First(s.flowIDs, all[i].members))
  }

  /** What an ID that is known gives its connection instead of an ongoing snapshot: an
      end that it showed before, or, if an earlier connection took the ID and with it
      the snapshot that the two share, that connection's end. */
  ghost predicate Inherits(s: State, all: seq<Merged>, i: nat)
    requires i < |all|
  {
    var known := First(s.flowIDs, all[i].members);
    known in s.displayed &&
    if Same(s, all, i, i) then all[i].flow == s.displayed[known]
    else Contents(s.heap, s.displayed[known]).end != Ongoing
  }

  predicate Due(d: Data, now: Moment) { d.closed && now.at - d.last >= 2_000_000_000 }

  /** The tick in progress when it is the turn of the connection at `i`. */
  function Turn(s: State, all: seq<Merged>, i: nat, now: Moment): Tick
    requires i <= |all|
  {
    PlaceAll(s, Start(s), all[..i], now)
  }

  lemma TurnNext(s: State, all: seq<Merged>, i: nat, now: Moment)
    requires i < |all|
    ensures Turn(s, all, i + 1, now) == Place(s, Turn(s, all, i, now), all[i], now)
  {
    assert all[..i + 1][..i] == all[..i];
  }

  lemma TurnOnTrack(s: State, all: seq<Merged>, i: nat, now: Moment)
    requires Sound(s) && AllReady(s, Start(s), all) && i <= |all|
    ensures OnTrack(s, Turn(s, all, i, now), all[i..])
  {
    StartPlacing(s);
    PlaceSome(s, Start(s), all, i, now);
  }

  lemma TakenNext(s: State, t: Tick, m: Merged, now: Moment, known: nat)
    requires known != 0
    ensures s.nextID <= t.nextID && known <= s.nextID ==>
              (known in Place(s, t, m, now).active <==> known in t.active || First(s.flowIDs, m.members) == known)
  {
    PlacePuts(s, t, m, now);
  }

  lemma TurnCounts(s: State, all: seq<Merged>, k: nat, now: Moment, known: nat)
    requires Sound(s) && AllReady(s, Start(s), all) && k <= |all| && known in s.displayed
    ensures known != 0 && known <= s.nextID <= Turn(s, all, k, now).nextID
  {
    TurnOnTrack(s, all, k, now);
  }

  lemma TakenAtTurn(s: State, all: seq<Merged>, k: nat, now: Moment, known: nat)
    requires Sound(s) && AllReady(s, Start(s), all) && k < |all| && known in s.displayed
    ensures known in Turn(s, all, k + 1, now).active <==>
            known in Turn(s, all, k, now).active || First(s.flowIDs, all[k].members) == known
  {
    TurnCounts(s, all, k, now, known);
    TakenNext(s, Turn(s, all, k, now), all[k], now, known);
    TurnNext(s, all, k, now);
  }

  /** An ID of the last tick is taken once a connection with it had its turn. */
  lemma {:induction false} TakenInTurn(s: State, all: seq<Merged>, k: nat, now: Moment, known: nat)
    requires Sound(s) && AllReady(s, Start(s), all) && k <= |all| && known in s.displayed
    ensures known in Turn(s, all, k, now).active <==> Claimed(s, all, k, known)
  {
    if k == 0 {
      assert all[..0] == [];
    } else {
      TakenInTurn(s, all, k - 1, now, known);
      TakenAtTurn(s, all, k - 1, now, known);
      ClaimedNext(s, all, k - 1, known);
    }
  }

  /** What a connection finds in its snapshot: its own contents, in a snapshot of this
      tick alone or in that of its ID, or the end of the connection that took the ID. */
  datatype Found = Private | InUse | Taken | Astray

  ghost function Finding(s: State, t: Tick, m: Merged): Found {
    if Alone(s, t, m) && t.heap[m.flow] == Contents(s.heap, m.flow) then Private
    else if InPlace(s, t, m) && t.heap[m.flow] == Contents(s.heap, m.flow) then InUse
    else if TakenOver(s, t, m) then Taken
    else Astray
  }

  lemma PrivateStays(s: State, t: Tick, u: Tick, id: nat, w: Shown, later: Merged)
    requires Puts(t, u, id, w) && w.flow != later.flow && Finding(s, t, later) == Private
    ensures Finding(s, u, later) == Private
  {
    AloneStays(s, t, u, id, w, later);
  }

  lemma InUseStays(s: State, t: Tick, u: Tick, id: nat, w: Shown, later: Merged)
    requires Harmless(s, t, id, w) && Puts(t, u, id, w) && id != First(s.flowIDs, later.members)
    requires Finding(s, t, later) == InUse
    ensures Finding(s, u, later) == InUse
  {
    InPlaceStays(s, t, u, id, w, later);
    assert later.flow != w.flow;
    assert later.flow in s.displayed.Values;
  }

  lemma TakenStays(s: State, t: Tick, u: Tick, id: nat, w: Shown, later: Merged)
    requires Harmless(s, t, id, w) && Puts(t, u, id, w) && Finding(s, t, later) == Taken
    ensures Finding(s, u, later) == Taken
  {
    TakenOverStays(s, t, u, id, w, later);
    assert later.flow in u.shown.Values;
  }

  lemma BecomesTaken(s: State, t: Tick, m: Merged, later: Merged, now: Moment)
    requires Sound(s) && Counted(s, t) && Ordered(s, t, m, later) && Finding(s, t, later) == InUse
    requires First(s.flowIDs, m.members) == First(s.flowIDs, later.members)
    ensures Finding(s, Place(s, t, m, now), later) == Taken
  {
    BecomesTakenOver(s, t, m, later, now);
    assert later.flow in Place(s, t, m, now).shown.Values;
  }

  lemma WritesOwn(s: State, t: Tick, m: Merged, now: Moment)
    ensures ShownFor(s, t, m, now).flow == m.flow || ShownFor(s, t, m, now).flow in s.displayed.Values
  {
    if IdFor(s, t, m) in s.displayed { assert s.displayed[IdFor(s, t, m)] in s.displayed.Values; }
  }

  lemma OtherID(s: State, t: Tick, m: Merged, later: Merged)
    requires Counted(s, t) && Numbered(s.displayed.Keys, s.nextID) && First(s.flowIDs, later.members) in s.displayed
    requires First(s.flowIDs, m.members) != First(s.flowIDs, later.members)
    ensures IdFor(s, t, m) != First(s.flowIDs, later.members)
  {
  }

  function After(f: Found, same: bool): Found { if f == InUse && same then Taken else f }

  lemma FindsNext(s: State, t: Tick, m: Merged, later: Merged, now: Moment)
    requires Sound(s) && Placing(s, t) && Ready(s, t, m)
    requires m.flow != later.flow && Ordered(s, t, m, later) && Finding(s, t, later) != Astray
    ensures Finding(s, Place(s, t, m, now), later) ==
            After(Finding(s, t, later), First(s.flowIDs, m.members) == First(s.flowIDs, later.members))
  {
    var id, w, u := IdFor(s, t, m), ShownFor(s, t, m, now), Place(s, t, m, now);
    Write(s, t, m, now);
    PlacePuts(s, t, m, now);
    WritesOwn(s, t, m, now);
    if Finding(s, t, later) == Private {
      PrivateStays(s, t, u, id, w, later);
    } else if Finding(s, t, later) == Taken {
      TakenStays(s, t, u, id, w, later);
    } else if First(s.flowIDs, m.members) == First(s.flowIDs, later.members) {
      BecomesTaken(s, t, m, later, now);
    } else {
      OtherID(s, t, m, later);
      InUseStays(s, t, u, id, w, later);
    }
  }

  lemma StartFinds(s: State, m: Merged)
    requires Ready(s, Start(s), m)
    ensures Finding(s, Start(s), m) == if Alone(s, Start(s), m) then Private else InUse
  {
  }

  lemma FindsTurn(s: State, t: Tick, rest: seq<Merged>, d: nat, m: Merged, later: Merged, now: Moment)
    requires Sound(s) && 0 < d < |rest| && rest[0] == m && rest[d] == later
    ensures OnTrack(s, t, rest) && Finding(s, t, later) != Astray ==>
              Finding(s, Place(s, t, m, now), later) ==
              After(Finding(s, t, later), First(s.flowIDs, m.members) == First(s.flowIDs, later.members))
  {
    if OnTrack(s, t, rest) && Finding(s, t, later) != Astray {
      FindsNext(s, t, m, later, now);
    }
  }

  lemma RestAt(all: seq<Merged>, i: nat, k: nat)
    requires k < i < |all|
    ensures |all[k..]| == |all| - k && all[k..][0] == all[k] && all[k..][i - k] == all[i]
  {
  }

  lemma FindsAfterTurn(s: State, t: Tick, all: seq<Merged>, i: nat, k: nat, now: Moment)
    requires Sound(s) && k < i < |all|
    ensures OnTrack(s, t, all[k..]) && Finding(s, t, all[i]) != Astray ==>
              Finding(s, Place(s, t, all[k], now), all[i]) ==
              After(Finding(s, t, all[i]), First(s.flowIDs, all[k].members) == First(s.flowIDs, all[i].members))
  {
    RestAt(all, i, k);
    FindsTurn(s, t, all[k..], i - k, all[k], all[i], now);
  }

  lemma FindsAtTurn(s: State, all: seq<Merged>, i: nat, k: nat, now: Moment)
    requires Sound(s) && AllReady(s, Start(s), all) && k < i < |all|
    requires Finding(s, Turn(s, all, k, now), all[i]) != Astray
    ensures Finding(s, Turn(s, all, k + 1, now), all[i]) ==
            After(Finding(s, Turn(s, all, k, now), all[i]),
                  First(s.flowIDs, all[k].members) == First(s.flowIDs, all[i].members))
  {
    TurnOnTrack(s, all, k, now);
    FindsAfterTurn(s, Turn(s, all, k, now), all, i, k, now);
    TurnNext(s, all, k, now);
  }

  lemma SameNext(s: State, all: seq<Merged>, i: nat, k: nat)
    requires 0 < k <= i < |all|
    ensures Same(s, all, i, k) <==>
            Same(s, all, i, k - 1) || First(s.flowIDs, all[k - 1].members) == First(s.flowIDs, all[i].members)
  {
  }

  lemma StartFindsAll(s: State, all: seq<Merged>, i: nat, now: Moment)
    requires AllReady(s, Start(s), all) && i < |all|
    ensures Turn(s, all, 0, now) == Start(s) && Finding(s, Start(s), all[i]) in {Private, InUse}
  {
    assert all[..0] == [];
    StartFinds(s, all[i]);
  }

  /** What a connection finds at any turn up to its own. */
  lemma {:induction false} FindsInTurn(s: State, all: seq<Merged>, i: nat, k: nat, now: Moment)
    requires Sound(s) && AllReady(s, Start(s), all) && k <= i < |all|
    ensures Finding(s, Turn(s, all, k, now), all[i]) == After(Finding(s, Start(s), all[i]), Same(s, all, i, k))
  {
    StartFindsAll(s, all, i, now);
    if k > 0 {
      FindsInTurn(s, all, i, k - 1, now);
      FindsAtTurn(s, all, i, k - 1, now);
      SameNext(s, all, i, k);
    }
  }

  /** Which snapshot decides: at its turn a connection shows its own contents as going
      on if and only if they say so, they are not due to end, and nothing is inherited. */
  lemma ShownInTurn(s: State, all: seq<Merged>, i: nat, now: Moment)
    requires Sound(s) && AllReady(s, Start(s), all) && i < |all|
    ensures var w, d := ShownFor(s, Turn(s, all, i, now), all[i], now), Contents(s.heap, all[i].flow);
            && (w.data.end == Ongoing <==> d.end == Ongoing && !Due(d, now) && !Inherits(s, all, i))
            && (w.data.end == Ongoing ==> w.data == d)
  {
    var t, m := Turn(s, all, i, now), all[i];
    var known := First(s.flowIDs, m.members);
    FindsInTurn(s, all, i, i, now);
    StartFinds(s, m);
    TurnOnTrack(s, all, i, now);
    FirstIsDisplayed(s, m.members);
    if known in s.displayed { TakenInTurn(s, all, i, now, known); }
    NewIsUnrecorded(s, t);
    ShownByFinding(s, t, m, now);
  }

  lemma ShownByFinding(s: State, t: Tick, m: Merged, now: Moment)
    requires Sound(s) && Placing(s, t) && Finding(s, t, m) != Astray
    ensures var w, d, known := ShownFor(s, t, m, now), Contents(s.heap, m.flow), First(s.flowIDs, m.members);
            var ended := known in s.displayed && known !in t.active
              && Contents(s.heap, s.displayed[known]).end != Ongoing;
            && (w.data.end == Ongoing <==> Finding(s, t, m) != Taken && d.end == Ongoing && !Due(d, now) && !ended)
            && (w.data.end == Ongoing ==> w.data == d)
  {
    FirstIsDisplayed(s, m.members);
    NewIsUnrecorded(s, t);
  }

  /** What an ID shows, what that holds, and the totals that it is counted with. */
  function Showed(t: Tick, id: nat): Option<(Flow, Data, Total)> {
    if id in t.shown && id in t.active then Some((t.shown[id], Contents(t.heap, t.shown[id]), t.active[id])) else None
  }

  lemma PlaceLeavesShown(s: State, t: Tick, rest: seq<Merged>, now: Moment, id: nat)
    requires Sound(s) && OnTrack(s, t, rest) && rest != [] && id in t.shown
    ensures id in Place(s, t, rest[0], now).shown && Showed(Place(s, t, rest[0], now), id) == Showed(t, id)
  {
    Write(s, t, rest[0], now);
    PlacePuts(s, t, rest[0], now);
    assert t.shown[id] in t.shown.Values;
  }

  /** The connection at `k` changes nothing that the ID shows. */
  ghost predicate Leaves(s: State, all: seq<Merged>, k: nat, now: Moment, id: nat)
    requires k < |all|
  {
    id in Turn(s, all, k, now).shown ==>
      id in Turn(s, all, k + 1, now).shown
      && Showed(Turn(s, all, k + 1, now), id) == Showed(Turn(s, all, k, now), id)
  }

  lemma TurnLeavesShown(s: State, all: seq<Merged>, k: nat, now: Moment, id: nat)
    requires Sound(s) && AllReady(s, Start(s), all) && k < |all|
    ensures Leaves(s, all, k, now, id)
  {
    if id in Turn(s, all, k, now).shown {
      TurnNext(s, all, k, now);
      TurnOnTrack(s, all, k, now);
      assert all[k..][0] == all[k];
      PlaceLeavesShown(s, Turn(s, all, k, now), all[k..], now, id);
    }
  }

  lemma {:induction false} AllLeave(s: State, all: seq<Merged>, i: nat, k: nat, now: Moment, id: nat)
    requires i <= k <= |all| && id in Turn(s, all, i, now).shown
    requires forall j :: i <= j < k ==> Leaves(s, all, j, now, id)
    ensures id in Turn(s, all, k, now).shown
    ensures Showed(Turn(s, all, k, now), id) == Showed(Turn(s, all, i, now), id)
  {
    if i < k {
      AllLeave(s, all, i, k - 1, now, id);
      assert Leaves(s, all, k - 1, now, id);
    }
  }

  /** Later turns change nothing that is shown. */
  lemma TurnsLeaveShown(s: State, all: seq<Merged>, i: nat, k: nat, now: Moment, id: nat)
    requires Sound(s) && AllReady(s, Start(s), all) && i <= k <= |all| && id in Turn(s, all, i, now).shown
    ensures id in Turn(s, all, k, now).shown
    ensures Showed(Turn(s, all, k, now), id) == Showed(Turn(s, all, i, now), id)
  {
    forall j | i <= j < k ensures Leaves(s, all, j, now, id) {
      TurnLeavesShown(s, all, j, now, id);
    }
    AllLeave(s, all, i, k, now, id);
  }

  lemma VanishLeavesShown(s: State, t: Tick, gone: nat, now: Moment, id: nat)
    requires Sound(s) && Leaving(s, t) && Waiting(s, t, gone) && id in t.shown
    ensures Showed(Vanish(s, t, gone, now), id) == Showed(t, id)
  {
    assert t.shown[id] != s.displayed[gone];
  }

  lemma VanishLastLeavesShown(s: State, t: Tick, ids: seq<nat>, now: Moment, id: nat)
    requires Sound(s) && Leaving(s, t) && (forall i :: 0 <= i < |ids| ==> Waiting(s, t, ids[i])) && id in t.shown
    requires ids != []
    ensures Showed(VanishAll(s, t, ids, now), id) == Showed(VanishAll(s, t, ids[..|ids| - 1], now), id)
  {
    VanishSome(s, t, ids[..|ids| - 1], now);
    VanishLeavesShown(s, VanishAll(s, t, ids[..|ids| - 1], now), ids[|ids| - 1], now, id);
  }

  lemma {:induction false} VanishAllLeavesShown(s: State, t: Tick, ids: seq<nat>, now: Moment, id: nat)
    requires Sound(s) && Leaving(s, t) && (forall i :: 0 <= i < |ids| ==> Waiting(s, t, ids[i])) && id in t.shown
    ensures Showed(VanishAll(s, t, ids, now), id) == Showed(t, id)
    decreases |ids|
  {
    if ids != [] {
      VanishAllLeavesShown(s, t, ids[..|ids| - 1], now, id);
      VanishLastLeavesShown(s, t, ids, now, id);
    }
  }

  lemma StaysShown(s: State, all: seq<Merged>, order: seq<nat>, now: Moment, i: nat, id: nat)
    requires Inputs(s, all, order, now) && i <= |all| && id in Turn(s, all, i, now).shown
    ensures var t, next := Turn(s, all, i, now), Next(s, all, order, now);
            && id in next.displayed && next.displayed[id] == t.shown[id]
            && Contents(next.heap, t.shown[id]) == Contents(t.heap, t.shown[id])
            && id in next.active && id in t.active && next.active[id] == t.active[id]
  {
    var placed := Turn(s, all, |all|, now);
    TurnOnTrack(s, all, i, now);
    TurnsLeaveShown(s, all, i, |all|, now, id);
    TurnOnTrack(s, all, |all|, now);
    assert all[..|all|] == all;
    PlacedLeaves(s, placed);
    forall k | 0 <= k < |order| ensures Waiting(s, placed, order[k]) {
      assert order[k] in Members(order);
    }
    VanishAllLeavesShown(s, placed, order, now, id);
    assert Showed(Turn(s, all, i, now), id).Some?;
  }

  /** What is shown after a tick is what was shown at the connection's turn. */
  lemma ShownAfterTick(s: State, all: seq<Merged>, order: seq<nat>, now: Moment, i: nat)
    requires Inputs(s, all, order, now) && i < |all|
    ensures var t, next := Turn(s, all, i, now), Next(s, all, order, now);
            var id, w := IdFor(s, t, all[i]), ShownFor(s, t, all[i], now);
            && id in next.displayed && next.displayed[id] == w.flow && Contents(next.heap, w.flow) == w.data
            && id in next.active && next.active[id] == TotalOf(now, Contents(t.heap, all[i].flow))
  {
    var t := Turn(s, all, i, now);
    var id := IdFor(s, t, all[i]);
    TurnNext(s, all, i, now);
    StaysShown(s, all, order, now, i + 1, id);
  }

  /** The totals that an ID stands for are those of its connection, whether it goes on or
      ends, unless it inherits an end. */
  lemma CountedWithItsOwn(s: State, all: seq<Merged>, order: seq<nat>, now: Moment, i: nat)
    requires Inputs(s, all, order, now) && i < |all| && !Inherits(s, all, i)
    ensures var id, d := IdFor(s, Turn(s, all, i, now), all[i]), Contents(s.heap, all[i].flow);
            var next := Next(s, all, order, now);
            && id in next.active && next.active[id].rx == d.rx && next.active[id].tx == d.tx
            && (next.active[id].listed <==> d.evidence.Some? && now.says(d.evidence.value).listed)
  {
    FindsInTurn(s, all, i, i, now);
    StartFinds(s, all[i]);
    FirstIsDisplayed(s, all[i].members);
    ShownAfterTick(s, all, order, now, i);
  }

  /** After any tick, in any map order, a connection of the tick is shown as going on,
      with its own contents and no ending recorded, if and only if it says so, is not
      due to end, and inherits no end. Otherwise its ending is recorded. */
  lemma ShownAsGoingOn(s: State, all: seq<Merged>, order: seq<nat>, now: Moment, i: nat)
    requires Inputs(s, all, order, now) && i < |all|
    ensures var id, d := IdFor(s, Turn(s, all, i, now), all[i]), Contents(s.heap, all[i].flow);
            var next, goesOn := Next(s, all, order, now), d.end == Ongoing && !Due(d, now) && !Inherits(s, all, i);
            && id in next.displayed && (id in Ids(next.log) <==> !goesOn)
            && (Contents(next.heap, next.displayed[id]).end == Ongoing <==> goesOn)
            && (goesOn ==> Contents(next.heap, next.displayed[id]) == d)
  {
    ShownInTurn(s, all, i, now);
    ShownAfterTick(s, all, order, now, i);
    TickKeeps(s, all, order, now);
  }

  // ----- Whose IDs they are -----

  /** The first known ID is that of the first member that has one. */
  lemma {:induction false} FirstMeans(ids: map<Observation, nat>, members: seq<Observation>) returns (k: nat)
    ensures k <= |members| && forall j :: 0 <= j < k ==> members[j] !in ids || ids[members[j]] == 0
    ensures k < |members| ==> members[k] in ids && ids[members[k]] != 0 && First(ids, members) == ids[members[k]]
    ensures k == |members| ==> First(ids, members) == 0
    decreases |members|
  {
    k := 0;
    if members != [] && !(members[0] in ids && ids[members[0]] != 0) {
      var later := FirstMeans(ids, members[1..]);
      k := later + 1;
    }
  }

  lemma {:induction false} VanishKeepsIds(s: State, t: Tick, ids: seq<nat>, now: Moment)
    requires forall i :: 0 <= i < |ids| ==> ids[i] in s.displayed
    ensures VanishAll(s, t, ids, now).ids == t.ids
    decreases |ids|
  {
    if ids != [] { VanishKeepsIds(s, t, ids[..|ids| - 1], now); }
  }

  lemma {:induction false} AssignedInTurn(s: State, all: seq<Merged>, n: nat, now: Moment, i: nat, o: Observation)
    requires i < n <= |all| && o in all[i].members && forall j :: i < j < n ==> o !in all[j].members
    ensures var ids := Turn(s, all, n, now).ids; o in ids && ids[o] == IdFor(s, Turn(s, all, i, now), all[i])
  {
    TurnNext(s, all, n - 1, now);
    if i < n - 1 { AssignedInTurn(s, all, n - 1, now, i, o); }
  }

  /** What the next tick will know every observation by: the ID of its connection. */
  lemma ObservationsKeepTheirID(s: State, all: seq<Merged>, order: seq<nat>, now: Moment, i: nat, o: Observation)
    requires forall k :: 0 <= k < |order| ==> order[k] in s.displayed
    requires i < |all| && o in all[i].members && forall j :: i < j < |all| ==> o !in all[j].members
    ensures var ids := Next(s, all, order, now).flowIDs;
            o in ids && ids[o] == IdFor(s, Turn(s, all, i, now), all[i])
  {
    AssignedInTurn(s, all, |all|, now, i, o);
    assert all[..|all|] == all;
    VanishKeepsIds(s, PlaceAll(s, Start(s), all, now), order, now);
  }

  // ----- Why each connection ended -----

  /** `e` is what a connection held when its ending was recorded at `at`, and `d` what it
      held when the tick began. An end that was there stays. Otherwise a closed connection
      ends by its reset or its FINs, and an open one for having been quiet for more than
      five minutes, or else because there was no room for it. */
  ghost predicate EndsRightly(d: Data, e: Data, at: int) {
    && e == d.(end := e.end)
    && (d.end != Ongoing ==> e.end == d.end)
    && (d.end == Ongoing ==>
          && (e.end == Reset <==> d.closed && d.reset)
          && (e.end == Fin <==> d.closed && !d.reset)
          && (e.end == Idle <==> !d.closed && at - d.last > 300_000_000_000)
          && (e.end == Evicted <==> !d.closed && at - d.last <= 300_000_000_000))
  }

  lemma TurnRecords(s: State, all: seq<Merged>, n: nat, now: Moment)
    requires n < |all|
    ensures var t := Turn(s, all, n, now);
            Turn(s, all, n + 1, now).log == Record(t.log, IdFor(s, t, all[n]), ShownFor(s, t, all[n], now))
  {
    TurnNext(s, all, n, now);
  }

  lemma NothingRecorded(s: State, all: seq<Merged>, now: Moment)
    ensures Turn(s, all, 0, now).log == s.log
  {
    assert all[..0] == [];
  }

  /** Which connection of the tick an ending recorded while placing is of. */
  lemma {:induction false} PlacedEntry(s: State, all: seq<Merged>, n: nat, now: Moment, k: nat) returns (i: nat)
    requires n <= |all| && |s.log| <= k < |Turn(s, all, n, now).log|
    ensures i < n
    ensures var t := Turn(s, all, i, now);
            var w := ShownFor(s, t, all[i], now);
            w.remember && Turn(s, all, n, now).log[k] == Remembered(IdFor(s, t, all[i]), w.flow, w.data)
  {
    NothingRecorded(s, all, now);
    TurnRecords(s, all, n - 1, now);
    if k < |Turn(s, all, n - 1, now).log| {
      i := PlacedEntry(s, all, n - 1, now, k);
    } else {
      i := n - 1;
    }
  }

  lemma EndByFinding(s: State, t: Tick, m: Merged, now: Moment)
    requires Sound(s) && Placing(s, t) && Finding(s, t, m) in {Private, InUse}
    ensures var w, d := ShownFor(s, t, m, now), Contents(s.heap, m.flow);
            w.remember ==> EndsRightly(d, w.data, now.at) && (d.end != Ongoing || Due(d, now))
  {
    FirstIsDisplayed(s, m.members);
    NewIsUnrecorded(s, t);
  }

  /** A connection that took over an ID's snapshot finds it recorded, under another ID. */
  lemma EndInTurn(s: State, all: seq<Merged>, i: nat, now: Moment)
    requires Sound(s) && AllReady(s, Start(s), all) && i < |all| && !Inherits(s, all, i)
    ensures var w, d := ShownFor(s, Turn(s, all, i, now), all[i], now), Contents(s.heap, all[i].flow);
            w.remember ==> EndsRightly(d, w.data, now.at) && (d.end != Ongoing || Due(d, now))
  {
    var t, m := Turn(s, all, i, now), all[i];
    FindsInTurn(s, all, i, i, now);
    StartFinds(s, m);
    TurnOnTrack(s, all, i, now);
    FirstIsDisplayed(s, m.members);
    EndByFinding(s, t, m, now);
  }

  /** A connection that inherits an end is recorded only if its snapshot is that of the
      connection that took its ID. */
  lemma InheritedInTurn(s: State, all: seq<Merged>, i: nat, now: Moment)
    requires Sound(s) && AllReady(s, Start(s), all) && i < |all| && Inherits(s, all, i)
    ensures var t, known := Turn(s, all, i, now), First(s.flowIDs, all[i].members);
            var w := ShownFor(s, t, all[i], now);
            w.remember ==> known in t.shown && t.shown[known] == w.flow && IdFor(s, t, all[i]) != known
  {
    var t, m := Turn(s, all, i, now), all[i];
    var known := First(s.flowIDs, m.members);
    FindsInTurn(s, all, i, i, now);
    StartFinds(s, m);
    TurnOnTrack(s, all, i, now);
    FirstIsDisplayed(s, m.members);
    TakenInTurn(s, all, i, now, known);
    NewIsUnrecorded(s, t);
    if Same(s, all, i, i) { assert m.flow in s.displayed.Values; }
  }

  /** A snapshot of a gone ID that still goes on is as it was. */
  ghost predicate Unburied(s: State, t: Tick) {
    forall id :: Waiting(s, t, id) && Contents(t.heap, s.displayed[id]).end == Ongoing ==>
      Contents(t.heap, s.displayed[id]) == Contents(s.heap, s.displayed[id])
  }

  lemma VanishUnburied(s: State, t: Tick, id: nat, now: Moment)
    requires Waiting(s, t, id) && Unburied(s, t)
    ensures Unburied(s, Vanish(s, t, id, now)) && Vanish(s, t, id, now).shown == t.shown
  {
  }

  /** What the endings recorded for some gone IDs leave, and tell. */
  ghost predicate Buried(s: State, t: Tick, ids: seq<nat>, now: Moment, k: nat, u: Tick) {
    && Unburied(s, u) && u.shown == t.shown && t.log <= u.log
    && (|t.log| <= k < |u.log| ==>
          var e := u.log[k];
          && e.id in Members(ids) && Waiting(s, t, e.id)
          && EndsRightly(Contents(s.heap, s.displayed[e.id]), e.data, now.at))
  }

  lemma BuriedNext(s: State, t: Tick, ids: seq<nat>, now: Moment, k: nat, u: Tick)
    requires ids != [] && Waiting(s, t, ids[|ids| - 1]) && Buried(s, t, ids[..|ids| - 1], now, k, u)
    ensures Buried(s, t, ids, now, k, Vanish(s, u, ids[|ids| - 1], now))
  {
    VanishUnburied(s, u, ids[|ids| - 1], now);
    MembersMore(ids);
  }

  /** Which ID an ending recorded for the gone ones is of. */
  lemma {:induction false} GoneEntry(s: State, t: Tick, ids: seq<nat>, now: Moment, k: nat)
    requires Unburied(s, t) && forall i :: 0 <= i < |ids| ==> Waiting(s, t, ids[i])
    ensures Buried(s, t, ids, now, k, VanishAll(s, t, ids, now))
    decreases |ids|
  {
    if ids != [] {
      var last := |ids| - 1;
      GoneEntry(s, t, ids[..last], now, k);
      BuriedNext(s, t, ids, now, k, VanishAll(s, t, ids[..last], now));
    }
  }

  lemma PlacedUnburied(s: State, t: Tick)
    requires Untouched(s, t)
    ensures Unburied(s, t)
  {
  }

  /** `e` is the ending of the connection at `i`, which failed, or closed two seconds ago,
      or whose snapshot is now that of the connection that took its ID. */
  ghost predicate OfPlaced(s: State, all: seq<Merged>, now: Moment, next: State, e: Remembered, i: nat)
    requires i < |all|
  {
    var d, known := Contents(s.heap, all[i].flow), First(s.flowIDs, all[i].members);
    && e.id == IdFor(s, Turn(s, all, i, now), all[i])
    && if Inherits(s, all, i) then known != e.id && known in next.displayed && next.displayed[known] == e.flow
       else EndsRightly(d, e.data, now.at) && (d.end != Ongoing || Due(d, now))
  }

  ghost predicate OfGone(s: State, order: seq<nat>, now: Moment, e: Remembered) {
    && e.id in Members(order) && e.id in s.displayed
    && EndsRightly(Contents(s.heap, s.displayed[e.id]), e.data, now.at)
  }

  lemma PlacedTellsWhy(s: State, all: seq<Merged>, order: seq<nat>, now: Moment, k: nat) returns (i: nat)
    requires Inputs(s, all, order, now) && |s.log| <= k < |Turn(s, all, |all|, now).log|
    ensures i < |all| && OfPlaced(s, all, now, Next(s, all, order, now), Turn(s, all, |all|, now).log[k], i)
  {
    i := PlacedEntry(s, all, |all|, now, k);
    if Inherits(s, all, i) {
      InheritedInTurn(s, all, i, now);
      StaysShown(s, all, order, now, i, First(s.flowIDs, all[i].members));
    } else {
      EndInTurn(s, all, i, now);
    }
  }

  lemma EntryTellsWhy(s: State, all: seq<Merged>, order: seq<nat>, now: Moment, k: nat)
    requires Inputs(s, all, order, now)
    requires |s.log| <= k < |Next(s, all, order, now).log|
    ensures var next := Next(s, all, order, now);
            OfGone(s, order, now, next.log[k])
            || exists i :: 0 <= i < |all| && OfPlaced(s, all, now, next, next.log[k], i)
  {
    var placed := Turn(s, all, |all|, now);
    TurnOnTrack(s, all, |all|, now);
    assert all[..|all|] == all;
    forall i | 0 <= i < |order| ensures Waiting(s, placed, order[i]) {
      assert order[i] in Members(order);
    }
    PlacedUnburied(s, placed);
    GoneEntry(s, placed, order, now, k);
    if k < |placed.log| {
      var i := PlacedTellsWhy(s, all, order, now, k);
    }
  }

  ghost predicate TellsWhy(s: State, all: seq<Merged>, order: seq<nat>, now: Moment, next: State) {
    forall k :: |s.log| <= k < |next.log| ==>
      OfGone(s, order, now, next.log[k]) || exists i :: 0 <= i < |all| && OfPlaced(s, all, now, next, next.log[k], i)
  }

  /** Every ending that a tick records, in whatever order the maps are walked, is that of
      a connection of the tick or that of a gone ID, and tells why. */
  lemma EndingsTellWhy(s: State, all: seq<Merged>, order: seq<nat>, now: Moment)
    requires Inputs(s, all, order, now)
    ensures TellsWhy(s, all, order, now, Next(s, all, order, now))
  {
    forall k | |s.log| <= k < |Next(s, all, order, now).log|
      ensures var next := Next(s, all, order, now);
              OfGone(s, order, now, next.log[k])
              || exists i :: 0 <= i < |all| && OfPlaced(s, all, now, next, next.log[k], i)
    {
      EntryTellsWhy(s, all, order, now, k);
    }
  }

  /** It happens: when a connection splits and the part that failed comes first, the
      part that lives on gets a new ID but shows the failed one's snapshot, and is
      recorded as ended although nothing ended it. */
  lemma SplitLivesOnAsEnded(s: State, failed: Merged, living: Merged, now: Moment)
    requires Sound(s) && AllReady(s, Start(s), [failed, living])
    requires Alone(s, Start(s), failed) && InPlace(s, Start(s), living)
    requires First(s.flowIDs, failed.members) == First(s.flowIDs, living.members)
    ensures var t, known := PlaceAll(s, Start(s), [failed, living], now), First(s.flowIDs, living.members);
            && s.heap[living.flow].end == Ongoing && known in t.shown && s.nextID + 1 in t.shown
            && living.flow in t.heap
            && t.shown[known] == t.shown[s.nextID + 1] == living.flow
            && t.heap[living.flow] == s.heap[failed.flow]
            && Ids(t.log) == Ids(s.log) + {known, s.nextID + 1}
  {
    var t0, known := Start(s), First(s.flowIDs, living.members);
    var all := [failed, living];
    assert all[0] == failed && all[1] == living;
    assert Ordered(s, t0, all[0], all[1]);
    assert known in s.displayed && known !in t0.active;
    var t1 := Place(s, t0, failed, now);
    assert ShownFor(s, t0, failed, now) == Shown(living.flow, s.heap[failed.flow], true);
    var t2 := Place(s, t1, living, now);
    assert IdFor(s, t1, living) == s.nextID + 1 && s.nextID + 1 !in s.displayed;
    assert ShownFor(s, t1, living, now) == Shown(living.flow, s.heap[failed.flow], true);
    assert all[..1] == [failed] && all[..1][..0] == [];
    assert PlaceAll(s, t0, [], now) == t0;
    assert PlaceAll(s, t0, all[..1], now) == t1;
    assert PlaceAll(s, t0, all, now) == t2;
    TwoMore(s.log, Remembered(known, living.flow, s.heap[failed.flow]),
      Remembered(s.nextID + 1, living.flow, s.heap[failed.flow]));
  }

  lemma TwoMore(log: seq<Remembered>, d: Remembered, e: Remembered)
    ensures Ids(log + [d] + [e]) == Ids(log) + {d.id, e.id}
  {
    var more := log + [d] + [e];
    assert more[|log|] == d && more[|log| + 1] == e;
    forall r | r in log ensures r in more {
      var i :| 0 <= i < |log| && log[i] == r;
      assert more[i] == r;
    }
  }
}

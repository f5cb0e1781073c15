/** The change log of one connection: what a tick emits for it, and what it may have
    emitted so far. */
module Changes {
  import opened Endings
  import opened Prelude

  datatype Field = New | StateField | Process | EndField | Drops | Name

  /** What a snapshot shows at a moment, but for its end. */
  datatype Signature = Signature(state: nat, process: nat, drops: nat, name: nat)

  function SignatureOf(now: Moment, d: Data): Signature {
    Signature(d.marks.state, d.marks.process, d.marks.drops, Heard(now, d).name)
  }

  /** What changes are judged by: the signature and the end of the snapshot shown. */
  datatype ChangeKey = ChangeKey(signature: Signature, end: End)

  datatype PendingName = PendingName(name: nat, since: int)

  /** What is kept for one ID: the key last emitted, when it was first seen while not
      yet emitted, and a name that waits to settle. */
  datatype Track = Track(emitted: Option<ChangeKey>, first: Option<int>, pending: Option<PendingName>)

  const UNTRACKED := Track(None, None, None)

  function KeyOf(now: Moment, d: Data): ChangeKey { ChangeKey(SignatureOf(now, d), d.end) }

  /** What a snapshot shows at two moments is the same, with nothing written to it, if
      and only if it has no evidence or that says the same name. */
  lemma NameFollowsEvidence(d: Data, before: Moment, after: Moment)
    ensures KeyOf(before, d) == KeyOf(after, d) <==>
            d.evidence.None? || before.says(d.evidence.value).name == after.says(d.evidence.value).name
  {
  }

  /** What one tick emits for an ID, and what is then kept. */
  datatype Step = Step(track: Track, fields: seq<Field>)

  function If(c: bool, f: Field): seq<Field> { if c then [f] else [] }

  /** An ID that is shown. */
  function Observe(t: Track, d: Data, now: Moment): Step {
    if t.emitted.None? then Introduce(t, d, now) else Compare(t, KeyOf(now, d), now.at)
  }

  /** A new ID is announced once it has settled, or at once when it has ended. */
  function Introduce(t: Track, d: Data, now: Moment): Step {
    var seen := if t.first.Some? then t.first.value else now.at;
    if now.at - seen < LATE_EVENT_WINDOW && d.end == Ongoing then Step(t.(first := Some(seen)), [])
    else Step(t.(emitted := Some(KeyOf(now, d)), first := None), [New] + If(d.end != Ongoing, EndField))
  }

  /** A name is announced once it has stayed the same for the window, but its loss at
      once: the absent pending name counts as the empty one, seen long ago. */
  function SettleName(t: Track, name: nat, now: int): (r: (Option<PendingName>, bool))
    requires t.emitted.Some?
  {
    if name == t.emitted.value.signature.name then (None, false)
    else if t.pending.None? && name == NO_NAME then (None, true)
    else if t.pending.None? || t.pending.value.name != name then (Some(PendingName(name, now)), false)
    else if now - t.pending.value.since >= LATE_EVENT_WINDOW then (None, true)
    else (t.pending, false)
  }

  function Compare(t: Track, key: ChangeKey, now: int): Step
    requires t.emitted.Some?
  {
    var was := t.emitted.value;
    var (pending, named) := SettleName(t, key.signature.name, now);
    var kept := ChangeKey(key.signature.(name := if named then key.signature.name else was.signature.name), key.end);
    Step(Track(Some(kept), t.first, pending), Differences(was, key, named))
  }

  function Differences(was: ChangeKey, key: ChangeKey, named: bool): seq<Field> {
    If(key.signature.state != was.signature.state, StateField)
    + If(key.signature.process != was.signature.process, Process)
    + If(key.end != was.end, EndField) + If(key.signature.drops != was.signature.drops, Drops) + If(named, Name)
  }

  /** What is emitted when an ID is gone. */
  function Part(t: Track): seq<Field> {
    if t.emitted.None? then [New, EndField] else If(t.emitted.value.end == Ongoing, EndField)
  }

  // ----- The protocol -----

  function Count(events: seq<Field>, f: Field): (n: nat)
    decreases |events|
  {
    if events == [] then 0 else Count(events[..|events| - 1], f) + if events[|events| - 1] == f then 1 else 0
  }

  lemma {:induction false} CountConcat(a: seq<Field>, b: seq<Field>, f: Field)
    ensures Count(a + b, f) == Count(a, f) + Count(b, f)
    decreases |b|
  {
    if b == [] {
      assert a + b == a;
    } else {
      var k := |b| - 1;
      CountConcat(a, b[..k], f);
      assert (a + b)[..|a + b| - 1] == a + b[..k];
    }
  }

  /** Everything emitted for an ID that is shown: nothing before it is announced, then
      one "new" that comes first, and one "end" iff an end was announced. */
  ghost predicate Proper(t: Track, events: seq<Field>) {
    if t.emitted.None? then events == []
    else
      && events != [] && events[0] == New && Count(events, New) == 1
      && Count(events, EndField) == if t.emitted.value.end == Ongoing then 0 else 1
  }

  /** Everything emitted for an ID that is gone. */
  ghost predicate Complete(events: seq<Field>) {
    events != [] && events[0] == New && Count(events, New) == 1 && Count(events, EndField) == 1
  }

  lemma FieldCounts(c: bool, g: Field, f: Field)
    ensures Count(If(c, g), f) == if c && f == g then 1 else 0
  {
    assert c ==> If(c, g)[..0] == [];
  }

  lemma CountFive(a: seq<Field>, b: seq<Field>, c: seq<Field>, d: seq<Field>, e: seq<Field>, f: Field)
    ensures Count(a + b + c + d + e, f) == Count(a, f) + Count(b, f) + Count(c, f) + Count(d, f) + Count(e, f)
  {
    CountConcat(a + b + c + d, e, f);
    CountConcat(a + b + c, d, f);
    CountConcat(a + b, c, f);
    CountConcat(a, b, f);
  }

  lemma DifferencesCount(was: ChangeKey, key: ChangeKey, named: bool, f: Field)
    ensures Count(Differences(was, key, named), f) ==
            if match f
               case New => false
               case StateField => key.signature.state != was.signature.state
               case Process => key.signature.process != was.signature.process
               case EndField => key.end != was.end
               case Drops => key.signature.drops != was.signature.drops
               case Name => named
            then 1 else 0
  {
    CountFive(If(key.signature.state != was.signature.state, StateField),
              If(key.signature.process != was.signature.process, Process), If(key.end != was.end, EndField),
              If(key.signature.drops != was.signature.drops, Drops), If(named, Name), f);
    FieldCounts(key.signature.state != was.signature.state, StateField, f);
    FieldCounts(key.signature.process != was.signature.process, Process, f);
    FieldCounts(key.end != was.end, EndField, f);
    FieldCounts(key.signature.drops != was.signature.drops, Drops, f);
    FieldCounts(named, Name, f);
  }

  lemma CompareCounts(t: Track, key: ChangeKey, now: int)
    requires t.emitted.Some?
    ensures var fields := Compare(t, key, now).fields;
            Count(fields, New) == 0 && Count(fields, EndField) == if key.end != t.emitted.value.end then 1 else 0
  {
    var named := SettleName(t, key.signature.name, now).1;
    DifferencesCount(t.emitted.value, key, named, New);
    DifferencesCount(t.emitted.value, key, named, EndField);
  }

  /** What was announced as ended is shown with that end from then on. */
  predicate Steady(t: Track, d: Data) {
    t.emitted.Some? && t.emitted.value.end != Ongoing ==> d.end == t.emitted.value.end
  }

  lemma IntroduceCounts(d: Data)
    ensures var fields := [New] + If(d.end != Ongoing, EndField);
            Count(fields, New) == 1 && Count(fields, EndField) == if d.end == Ongoing then 0 else 1
  {
    CountConcat([New], If(d.end != Ongoing, EndField), New);
    CountConcat([New], If(d.end != Ongoing, EndField), EndField);
    FieldCounts(d.end != Ongoing, EndField, New);
    FieldCounts(d.end != Ongoing, EndField, EndField);
    FieldCounts(true, New, New);
    FieldCounts(true, New, EndField);
  }

  /** As long as ends do not change once shown, every tick keeps to the protocol, and
      what it keeps agrees with what is shown. */
  lemma ObserveKeeps(t: Track, events: seq<Field>, d: Data, now: Moment)
    requires Proper(t, events) && Steady(t, d)
    ensures var step := Observe(t, d, now);
            && Proper(step.track, events + step.fields)
            && (step.track.emitted.Some? ==> step.track.emitted.value.end == d.end)
            && (d.end != Ongoing ==> step.track.emitted.Some?)
  {
    var step := Observe(t, d, now);
    CountConcat(events, step.fields, New);
    CountConcat(events, step.fields, EndField);
    if t.emitted.None? {
      assert events + step.fields == step.fields;
      IntroduceCounts(d);
    } else {
      CompareCounts(t, KeyOf(now, d), now.at);
      assert (events + step.fields)[0] == events[0];
    }
  }

  /** By the time an ID is gone its log is complete. */
  lemma PartCompletes(t: Track, events: seq<Field>)
    requires Proper(t, events)
    ensures Complete(events + Part(t))
  {
    CountConcat(events, Part(t), New);
    CountConcat(events, Part(t), EndField);
    if t.emitted.None? {
      assert events + Part(t) == [New] + If(true, EndField);
      FieldCounts(true, New, New);
      FieldCounts(true, New, EndField);
      FieldCounts(true, EndField, New);
      FieldCounts(true, EndField, EndField);
      CountConcat([New], If(true, EndField), New);
      CountConcat([New], If(true, EndField), EndField);
    } else {
      FieldCounts(t.emitted.value.end == Ongoing, EndField, New);
      FieldCounts(t.emitted.value.end == Ongoing, EndField, EndField);
      assert (events + Part(t))[0] == events[0];
    }
  }

  // ----- What is announced over any looks at one ID -----

  datatype Look = Look(d: Data, now: Moment)

  function Watched(t: Track, looks: seq<Look>): Track
    decreases |looks|
  {
    if looks == [] then t
    else
      var last := looks[|looks| - 1];
      Observe(Watched(t, looks[..|looks| - 1]), last.d, last.now).track
  }

  /** What the last look announces. */
  function Announced(t: Track, looks: seq<Look>): seq<Field>
    requires looks != []
  {
    var last := looks[|looks| - 1];
    Observe(Watched(t, looks[..|looks| - 1]), last.d, last.now).fields
  }

  lemma {:induction false} StillUnannounced(looks: seq<Look>, n: nat)
    requires n <= |looks|
    requires forall j :: 0 <= j < n ==>
               looks[j].d.end == Ongoing && looks[j].now.at - looks[0].now.at < 2_000_000_000
    ensures Watched(UNTRACKED, looks[..n]) == if n == 0 then UNTRACKED else Track(None, Some(looks[0].now.at), None)
  {
    if n > 0 {
      StillUnannounced(looks, n - 1);
      assert looks[..n][..n - 1] == looks[..n - 1];
    }
  }

  /** A new ID is announced at the first look at which it has ended, or two seconds have
      passed since the first one. */
  lemma NewWaits(looks: seq<Look>)
    requires looks != []
    requires forall j :: 0 <= j < |looks| - 1 ==>
               looks[j].d.end == Ongoing && looks[j].now.at - looks[0].now.at < 2_000_000_000
    ensures var last := looks[|looks| - 1];
            Announced(UNTRACKED, looks) == if last.d.end != Ongoing then [New, EndField]
                                      else if last.now.at - looks[0].now.at >= 2_000_000_000 then [New] else []
  {
    StillUnannounced(looks, |looks| - 1);
  }

  /** Once an ID is announced, a look announces exactly what differs from what was shown
      at the look before, each once; names apart, which have to settle. */
  lemma AnnouncedIffChanged(t: Track, looks: seq<Look>)
    requires |looks| >= 2 && Watched(t, looks[..|looks| - 1]).emitted.Some?
    ensures var n := |looks| - 1;
            var was, after, said := looks[n - 1].d, looks[n].d, Announced(t, looks);
            && Count(said, StateField) == (if after.marks.state != was.marks.state then 1 else 0)
            && Count(said, Process) == (if after.marks.process != was.marks.process then 1 else 0)
            && Count(said, Drops) == (if after.marks.drops != was.marks.drops then 1 else 0)
            && Count(said, EndField) == (if after.end != was.end then 1 else 0)
            && Count(said, New) == 0 && Count(said, Name) <= 1
  {
    var n := |looks| - 1;
    assert looks[..n][..n - 1] == looks[..n - 1];
    var kept, key := Watched(t, looks[..n]), KeyOf(looks[n].now, looks[n].d);
    var was, before := kept.emitted.value, KeyOf(looks[n - 1].now, looks[n - 1].d);
    assert was.end == before.end && was.signature == before.signature.(name := was.signature.name);
    AllCounts(was, key, SettleName(kept, key.signature.name, looks[n].now.at).1);
  }

  lemma AllCounts(was: ChangeKey, key: ChangeKey, named: bool)
    ensures var said := Differences(was, key, named);
            && Count(said, StateField) == (if key.signature.state != was.signature.state then 1 else 0)
            && Count(said, Process) == (if key.signature.process != was.signature.process then 1 else 0)
            && Count(said, Drops) == (if key.signature.drops != was.signature.drops then 1 else 0)
            && Count(said, EndField) == (if key.end != was.end then 1 else 0)
            && Count(said, Name) == (if named then 1 else 0) && Count(said, New) == 0
  {
    DifferencesCount(was, key, named, StateField);
    DifferencesCount(was, key, named, Process);
    DifferencesCount(was, key, named, Drops);
    DifferencesCount(was, key, named, EndField);
    DifferencesCount(was, key, named, Name);
    DifferencesCount(was, key, named, New);
  }

  function NameAt(look: Look): nat { Heard(look.now, look.d).name }

  /** Since which look the name has been the one shown at look `n`. */
  function Since(looks: seq<Look>, n: nat): (k: nat)
    requires n < |looks|
    ensures k <= n && (forall j :: k <= j <= n ==> NameAt(looks[j]) == NameAt(looks[n]))
    ensures k > 0 ==> NameAt(looks[k - 1]) != NameAt(looks[n])
  {
    if n > 0 && NameAt(looks[n - 1]) == NameAt(looks[n]) then Since(looks, n - 1) else n
  }

  /** Looks at an announced ID that show names other than the announced one, of which none
      has been there for two seconds before the last look. */
  ghost predicate Unsettled(t: Track, looks: seq<Look>) {
    && t.emitted.Some? && t.pending.None? && looks != [] && NameAt(looks[0]) != NO_NAME
    && (forall j :: 0 <= j < |looks| ==> NameAt(looks[j]) != t.emitted.value.signature.name)
    && forall j :: 0 <= j < |looks| - 1 ==> looks[j].now.at - looks[Since(looks, j)].now.at < 2_000_000_000
  }

  /** A look at a name that has not been there for long keeps it waiting. */
  lemma NameWaitsOn(t: Track, looks: seq<Look>, m: nat, announced: nat)
    requires m < |looks| && t.emitted.Some? && t.emitted.value.signature.name == announced
    requires NameAt(looks[m]) != announced && (m == 0 ==> NameAt(looks[m]) != NO_NAME)
    requires t.pending == if m == 0 then None
                          else Some(PendingName(NameAt(looks[m - 1]), looks[Since(looks, m - 1)].now.at))
    requires looks[m].now.at - looks[Since(looks, m)].now.at < 2_000_000_000
    ensures var kept := Observe(t, looks[m].d, looks[m].now).track;
            && kept.emitted.Some? && kept.emitted.value.signature.name == announced
            && kept.pending == Some(PendingName(NameAt(looks[m]), looks[Since(looks, m)].now.at))
  {
  }

  lemma {:induction false} NameWaits(t: Track, looks: seq<Look>, n: nat)
    requires Unsettled(t, looks) && n < |looks|
    ensures var kept := Watched(t, looks[..n]);
            kept.emitted.Some? && kept.emitted.value.signature.name == t.emitted.value.signature.name
            && kept.pending == if n == 0 then None
                               else Some(PendingName(NameAt(looks[n - 1]), looks[Since(looks, n - 1)].now.at))
  {
    if n > 0 {
      NameWaits(t, looks, n - 1);
      assert looks[..n][..n - 1] == looks[..n - 1];
      NameWaitsOn(Watched(t, looks[..n - 1]), looks, n - 1, t.emitted.value.signature.name);
    }
  }

  /** A name is announced once it has been shown for two seconds without a break. */
  lemma NameSettles(t: Track, looks: seq<Look>)
    requires Unsettled(t, looks)
    ensures var n := |looks| - 1;
            Count(Announced(t, looks), Name) == 1 <==> looks[n].now.at - looks[Since(looks, n)].now.at >= 2_000_000_000
  {
    var n := |looks| - 1;
    NameWaits(t, looks, n);
    NamedIffSettled(Watched(t, looks[..n]), looks[n]);
  }

  lemma NamedIffSettled(t: Track, look: Look)
    requires t.emitted.Some?
    ensures Count(Observe(t, look.d, look.now).fields, Name) == 1 <==> SettleName(t, NameAt(look), look.now.at).1
  {
    var key := KeyOf(look.now, look.d);
    AllCounts(t.emitted.value, key, SettleName(t, NameAt(look), look.now.at).1);
  }

  /** The loss of a name is announced at once, unless another name is waiting. */
  lemma LossIsAnnounced(t: Track, look: Look)
    requires t.emitted.Some? && t.pending.None? && NameAt(look) == NO_NAME
    ensures Count(Observe(t, look.d, look.now).fields, Name) == 1 <==> t.emitted.value.signature.name != NO_NAME
  {
    NamedIffSettled(t, look);
  }

  // ----- The change log of all IDs -----

  datatype Change = Change(id: nat, flow: Flow, fields: seq<Field>, at: int)

  /** What is kept for every ID, and everything emitted so far. */
  datatype Book = Book(
    keys: map<nat, ChangeKey>, firsts: map<nat, int>, pendings: map<nat, PendingName>, emitted: seq<Change>)

  function Get<V>(m: map<nat, V>, id: nat): Option<V> { if id in m then Some(m[id]) else None }

  function Put<V>(m: map<nat, V>, id: nat, v: Option<V>): map<nat, V> { if v.Some? then m[id := v.value] else m - {id} }

  function TrackOf(b: Book, id: nat): Track { Track(Get(b.keys, id), Get(b.firsts, id), Get(b.pendings, id)) }

  /** What the log says of one ID. */
  function EventsOf(log: seq<Change>, id: nat): seq<Field>
    decreases |log|
  {
    if log == [] then []
    else
      var rest := EventsOf(log[..|log| - 1], id);
      if log[|log| - 1].id == id then rest + log[|log| - 1].fields else rest
  }

  function Emit(log: seq<Change>, id: nat, flow: Flow, fields: seq<Field>, now: int): seq<Change> {
    if fields == [] then log else log + [Change(id, flow, fields, now)]
  }

  function Keep(b: Book, id: nat, t: Track, emitted: seq<Change>): Book {
    Book(Put(b.keys, id, t.emitted), Put(b.firsts, id, t.first), Put(b.pendings, id, t.pending), emitted)
  }

  function ObserveID(b: Book, id: nat, flow: Flow, d: Data, now: Moment): Book {
    var step := Observe(TrackOf(b, id), d, now);
    Keep(b, id, step.track, Emit(b.emitted, id, flow, step.fields, now.at))
  }

  function PartID(b: Book, id: nat, flow: Flow, now: int): Book {
    Keep(b, id, UNTRACKED, Emit(b.emitted, id, flow, Part(TrackOf(b, id)), now))
  }

  lemma EmitExtends(log: seq<Change>, id: nat, flow: Flow, fields: seq<Field>, now: int, other: nat)
    ensures EventsOf(Emit(log, id, flow, fields, now), other) ==
            if other == id then EventsOf(log, other) + fields else EventsOf(log, other)
  {
    if fields != [] {
      var more := Emit(log, id, flow, fields, now);
      assert more[..|more| - 1] == log;
    }
  }

  lemma {:induction false} NoEvents(log: seq<Change>, id: nat)
    requires forall c :: c in log ==> c.id != id
    ensures EventsOf(log, id) == []
    decreases |log|
  {
    if log != [] {
      var k := |log| - 1;
      assert log[k] in log;
      NoEvents(log[..k], id);
    }
  }

  lemma KeepTracks(b: Book, id: nat, t: Track, emitted: seq<Change>, other: nat)
    ensures TrackOf(Keep(b, id, t, emitted), other) == if other == id then t else TrackOf(b, other)
  {
  }

  /** What is kept for an ID agrees with what it shows. */
  predicate Agrees(t: Track, d: Data) {
    (t.emitted.Some? ==> t.emitted.value.end == d.end) && (d.end != Ongoing ==> t.emitted.Some?)
  }

  ghost predicate ProperAt(b: Book, id: nat) { Proper(TrackOf(b, id), EventsOf(b.emitted, id)) }

  /** The log of every ID keeps to the protocol. `todo` are the IDs shown but not yet
      looked at in this tick, `parting` those gone but not yet noticed. */
  ghost predicate Orderly(b: Book, showing: map<nat, Data>, todo: set<nat>, parting: set<nat>, nextID: nat) {
    && (forall id :: id in showing ==>
          && ProperAt(b, id)
          && (if id in todo then Steady(TrackOf(b, id), showing[id]) else Agrees(TrackOf(b, id), showing[id])))
    && (forall id :: id in parting ==> ProperAt(b, id))
    && (forall id: nat :: 0 < id <= nextID && id !in showing && id !in parting ==> Complete(EventsOf(b.emitted, id)))
    && b.keys.Keys + b.firsts.Keys + b.pendings.Keys <= showing.Keys + parting
    && (forall c :: c in b.emitted ==> 0 < c.id <= nextID)
    && parting !! showing.Keys && (forall id :: id in showing.Keys + parting ==> 0 < id <= nextID)
  }

  /** `c` is `b` with one ID's track replaced and its events extended. */
  ghost predicate Moves(b: Book, c: Book, id: nat, t: Track, fields: seq<Field>) {
    && TrackOf(c, id) == t && EventsOf(c.emitted, id) == EventsOf(b.emitted, id) + fields
    && (forall other: nat :: other != id ==> TrackOf(c, other) == TrackOf(b, other))
    && (forall other: nat :: other != id ==> EventsOf(c.emitted, other) == EventsOf(b.emitted, other))
    && (forall e :: e in c.emitted ==> e in b.emitted || e.id == id)
    && c.keys.Keys + c.firsts.Keys + c.pendings.Keys <= b.keys.Keys + b.firsts.Keys + b.pendings.Keys + {id}
  }

  lemma KeepMoves(b: Book, id: nat, flow: Flow, t: Track, fields: seq<Field>, now: int)
    ensures Moves(b, Keep(b, id, t, Emit(b.emitted, id, flow, fields, now)), id, t, fields)
  {
    var c := Keep(b, id, t, Emit(b.emitted, id, flow, fields, now));
    forall other: nat ensures TrackOf(c, other) == (if other == id then t else TrackOf(b, other)) {
      KeepTracks(b, id, t, c.emitted, other);
    }
    forall other: nat
      ensures EventsOf(c.emitted, other) ==
              if other == id then EventsOf(b.emitted, other) + fields else EventsOf(b.emitted, other)
    {
      EmitExtends(b.emitted, id, flow, fields, now, other);
    }
  }

  lemma ObserveOrderly(b: Book, showing: map<nat, Data>, todo: set<nat>, parting: set<nat>, nextID: nat, id: nat,
                       flow: Flow, now: Moment)
    requires Orderly(b, showing, todo, parting, nextID) && id in todo && id in showing
    ensures Orderly(ObserveID(b, id, flow, showing[id], now), showing, todo - {id}, parting, nextID)
  {
    var step := Observe(TrackOf(b, id), showing[id], now);
    assert ProperAt(b, id);
    ObserveKeeps(TrackOf(b, id), EventsOf(b.emitted, id), showing[id], now);
    KeepMoves(b, id, flow, step.track, step.fields, now.at);
    ObservedOrderly(b, ObserveID(b, id, flow, showing[id], now), showing, todo, parting, nextID, id, step);
  }

  lemma ObservedOrderly(b: Book, c: Book, showing: map<nat, Data>, todo: set<nat>, parting: set<nat>, nextID: nat,
                        id: nat, step: Step)
    requires Orderly(b, showing, todo, parting, nextID) && id in todo && id in showing
    requires Moves(b, c, id, step.track, step.fields)
    requires Proper(step.track, EventsOf(b.emitted, id) + step.fields) && Agrees(step.track, showing[id])
    ensures Orderly(c, showing, todo - {id}, parting, nextID)
  {
    forall other | other in showing.Keys + parting ensures ProperAt(c, other) {
      assert ProperAt(b, other);
    }
  }

  lemma PartOrderly(b: Book, showing: map<nat, Data>, parting: set<nat>, nextID: nat, id: nat, flow: Flow, now: int)
    requires Orderly(b, showing, {}, parting, nextID) && id in parting
    ensures Orderly(PartID(b, id, flow, now), showing, {}, parting - {id}, nextID)
  {
    assert ProperAt(b, id);
    PartCompletes(TrackOf(b, id), EventsOf(b.emitted, id));
    KeepMoves(b, id, flow, UNTRACKED, Part(TrackOf(b, id)), now);
    assert id !in PartID(b, id, flow, now).keys && id !in PartID(b, id, flow, now).firsts
           && id !in PartID(b, id, flow, now).pendings;
    PartedOrderly(b, PartID(b, id, flow, now), showing, parting, nextID, id, Part(TrackOf(b, id)));
  }

  lemma PartedOrderly(b: Book, c: Book, showing: map<nat, Data>, parting: set<nat>, nextID: nat, id: nat,
                      fields: seq<Field>)
    requires Orderly(b, showing, {}, parting, nextID) && id in parting
    requires Moves(b, c, id, UNTRACKED, fields) && Complete(EventsOf(b.emitted, id) + fields)
    requires id !in c.keys && id !in c.firsts && id !in c.pendings
    ensures Orderly(c, showing, {}, parting - {id}, nextID)
  {
    forall other | other in showing.Keys + (parting - {id}) ensures ProperAt(c, other) {
      assert ProperAt(b, other);
    }
    forall other | other in showing ensures Agrees(TrackOf(c, other), showing[other]) {
      assert Agrees(TrackOf(b, other), showing[other]);
    }
    PartedCompletes(b, c, showing, parting, nextID, id, fields);
    assert c.keys.Keys + c.firsts.Keys + c.pendings.Keys <= showing.Keys + (parting - {id});
  }

  lemma PartedCompletes(b: Book, c: Book, showing: map<nat, Data>, parting: set<nat>, nextID: nat, id: nat,
                        fields: seq<Field>)
    requires Moves(b, c, id, UNTRACKED, fields) && Complete(EventsOf(b.emitted, id) + fields)
    requires forall other: nat :: 0 < other <= nextID && other !in showing && other !in parting ==>
               Complete(EventsOf(b.emitted, other))
    ensures forall other: nat :: 0 < other <= nextID && other !in showing && other !in parting - {id} ==>
              Complete(EventsOf(c.emitted, other))
  {
    forall other: nat | 0 < other <= nextID && other !in showing && other !in parting - {id}
      ensures Complete(EventsOf(c.emitted, other))
    {
      if other != id { assert other !in parting; }
    }
  }

  /** A new tick: IDs are kept or new, and ends that were shown stay. */
  lemma NextOrderly(b: Book, before: map<nat, Data>, nextID: nat, after: map<nat, Data>, next: nat)
    requires Orderly(b, before, {}, {}, nextID) && nextID <= next
    requires forall id :: id in after ==> 0 < id <= next && (id in before || nextID < id)
    requires forall id: nat :: nextID < id <= next ==> id in after
    requires forall id :: id in after && id in before && before[id].end != Ongoing ==> after[id].end == before[id].end
    ensures Orderly(b, after, after.Keys, before.Keys - after.Keys, next)
  {
    forall id | id in after ensures ProperAt(b, id) && Steady(TrackOf(b, id), after[id]) {
      if id in before {
        assert ProperAt(b, id);
      } else {
        NoEvents(b.emitted, id);
        assert TrackOf(b, id) == UNTRACKED;
      }
    }
    forall id | id in before.Keys - after.Keys ensures ProperAt(b, id) {
      assert id in before;
    }
  }
}
